/**
 * The shape of a Pl@ntNet identify response, as the web app reads it.
 * Numbers the app never computes with (scores, counters) are kept as `real`
 * and `int` and only copied.
 */
module PlantNetTypes {
  import opened Wrappers

  /** The three renditions of a reference image: original, medium, small. */
  datatype ImageUrls = ImageUrls(o: string, m: string, s: string)

  datatype PlantNetImage = PlantNetImage(
    organ: string,
    author: Option<string>,
    license: Option<string>,
    citation: Option<string>,
    url: ImageUrls)

  /** A genus or family name. */
  datatype TaxonName = TaxonName(
    scientificNameWithoutAuthor: string,
    scientificNameAuthorship: Option<string>)

  datatype PlantNetSpecies = PlantNetSpecies(
    scientificNameWithoutAuthor: string,
    scientificNameAuthorship: Option<string>,
    genus: Option<TaxonName>,
    family: Option<TaxonName>,
    commonNames: Option<seq<string>>)

  datatype PlantNetResult = PlantNetResult(
    score: real,
    species: PlantNetSpecies,
    images: Option<seq<PlantNetImage>>)

  /** The response body; `results` arrive ranked by the service. */
  datatype PlantNetResponse = PlantNetResponse(
    language: string,
    preferedReferential: string,
    bestMatch: Option<string>,
    results: seq<PlantNetResult>,
    version: string,
    remainingIdentificationRequests: int)
}
