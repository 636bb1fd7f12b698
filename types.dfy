/**
 * The records the card service works with. The TypeScript declarations of
 * these types (src/types) are not part of this model; the fields are those
 * that src/utils/utils.ts reads, plus the other card fields of a creation
 * request.
 */
module Types {

  /**
   * One page of a card; `templateId` names the template that renders it. The
   * formatter reads this field as `templateId`, although the creation request
   * in the tests names it `template`.
   */
  datatype Page = Page(title: string, templateId: string)

  /**
   * A persisted card. `basePrice` is a JavaScript number; the model keeps it
   * as an integer since nothing here computes with it.
   */
  datatype Card = Card(
    id: string,
    title: string,
    templateId: string,
    sizes: seq<string>,
    basePrice: int,
    pages: seq<Page>)

  /** Read-only reference data supplying a cover image. */
  datatype Template = Template(id: string, imageUrl: string)

  /** The response shape of a card: never persisted. */
  datatype FormattedCard = FormattedCard(title: string, imageUrl: string, cardId: string)
}
