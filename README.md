# Card formatter and card id generator

A Dafny model of the two pure helpers behind the card service's HTTP
endpoints (src/utils/utils.ts):

- **Formatter.** `formatCard` projects a stored card to its response shape
  `{title, imageUrl, card_id}`. The cover image is the `imageUrl` of the first
  template whose `id` equals the template reference of the card's first page,
  or `""` when no template matches. `formatCardsResponse` returns `[]` when
  either the card list or the template list is empty, and otherwise formats
  every card, in order.
- **Id generator.** `generateNewCardId` reads the characters after position 4
  of every card id as a decimal number. It adds one to the largest value,
  left-pads the decimal rendering with `"0"` to at least three characters and
  prefixes `"card"`.

Layout: `types.dfy` holds the records (Page, Card, Template, FormattedCard)
and `wrappers.dfy` an Option type. `strings.dfy`
models JavaScript's `padStart`, and `decimal.dfy` models parsing (`+s`) and printing
(`toString`) of natural numbers, with their round trips in both directions.
`utils.dfy` holds the three source functions and the lemmas about them.

Modelling decisions:

- The template reference of a page is the single field `Page.templateId`,
  because that is the field the code reads (src/utils/utils.ts:25). The
  creation request in the tests (src/__tests__/server.test.ts:84-101) names
  this page field `template`. On records shaped like that,
  `card.pages[0].templateId` is undefined, no template matches, and the cover
  image is `""`. The model follows the code's field name.
- `card.pages[0]` is evaluated only inside the `find` callback. That callback
  never runs for an empty template list. So `FormatCard` requires
  `|templates| == 0 || |card.pages| > 0`, which is exactly the condition under
  which the code does not throw. `FormatCardsResponse` requires the same of
  every card (`Formattable`).
- `substring(4)` of an id with at most four characters is `""`, and `+""` is
  0 in JavaScript. `Suffix` and `DigitsToNat` follow this. The generator
  requires a non-empty card list whose id suffixes are all ASCII digit
  strings (possibly empty). Without that precondition the code produces
  `"card-Infinity"` or `"cardNaN"`.
- JavaScript indexes strings by UTF-16 code unit, while a Dafny `string` is a
  sequence of Unicode scalar values. The two agree for characters in the
  Basic Multilingual Plane, so `NumericIds` also requires every id to consist
  of such characters (`InBmp`). An id whose first character lies outside that
  plane would shift `substring(4)` by one code unit in JavaScript.
  The output of the generator is ASCII, so `padStart` counts alike in both.
- The TypeScript type declarations (src/types) are not part of this model.
  The record fields follow the persisted records and what the code reads.

## Model

| member | source | states |
|---|---|---|
| Utils.FindTemplate | src/utils/utils.ts:24-26 | the search finds nothing exactly when no template has the requested id; a found template is the one at the first position whose id matches |
| Utils.FormatCard | src/utils/utils.ts:20-33 | title and card id are copied from the card; the image URL is that of the first template matching the first page's template reference, and "" when there is no match or no templates |
| Utils.FormatCardsResponse | src/utils/utils.ts:3-18 | the response is empty exactly when the card list or the template list is empty; otherwise it has one entry per card, in order, entry i being card i formatted, with card i's title and id |
| Utils.Max | src/utils/utils.ts:37 | the maximum of a non-empty list is one of its elements and no element exceeds it |
| Utils.SuffixValues | src/utils/utils.ts:36 | one value per card, in order, each the number denoted by the id's characters after position 4 |
| Utils.Suffix | src/utils/utils.ts:36 | the characters after position 4: the id is its first four characters followed by the suffix, and the suffix is empty for ids of at most four characters |
| Utils.GenerateNewCardId | src/utils/utils.ts:35-40 | the new id is "card" followed by a digit string of at least 3 characters; its value, its exact length and its freshness are stated by NewCardIdRoundTrip, NewCardIdFormat and NewCardIdFresh |
| Utils.NewCardIdFormat | src/utils/utils.ts:38-39 | the new id is "card" followed by at least 3 decimal digits, and it has exactly 3 digits precisely when the largest existing suffix is below 999 |
| Utils.NewCardIdRoundTrip | src/utils/utils.ts:36-39 | reading the new id's suffix back gives the largest existing suffix value plus one |
| Utils.NewCardIdFresh | src/utils/utils.ts:36-38 | the new suffix value exceeds every existing suffix value, so the new id equals none of the existing ids |
| Utils.NewCardIdExample | src/utils/utils.ts:35-40 | any two cards with ids card001 and card002 yield card003 |
| Utils.PaddedNumberLength | src/utils/utils.ts:38 | the zero-padded rendering of n is a digit string of at least 3 characters, exactly 3 when n < 1000 |
| Utils.PaddedNumberValue | src/utils/utils.ts:38 | the zero-padded rendering of n still denotes n |
| Strings.PadStart | src/utils/utils.ts:38 | the result is the longer of the input and the width, ends with the input, and is pad characters before it |
| Decimal.DigitsToNat | src/utils/utils.ts:36 | the value of a digit string of length k is below 10^k |
| Decimal.NatToDigits | src/utils/utils.ts:38 | the rendering is a non-empty digit string with no leading zero unless it is "0" |
| Decimal.ParsePrinted | src/utils/utils.ts:36-38 | parsing the rendering of n gives n |
| Decimal.PrintParsed | src/utils/utils.ts:36-38 | rendering the value of a canonical digit string gives the string back |
| Decimal.PrintedLength | src/utils/utils.ts:38 | the rendering of n fits in k characters exactly when n < 10^k |
| Decimal.LeadingZeros | src/utils/utils.ts:36-38 | leading zeros do not change the value of a digit string |
| Decimal.ZeroPadded | src/utils/utils.ts:38 | padding a digit string with "0" keeps it a digit string with the same value |

## Left out

- Storage (src/models/cards.models.ts) is left out: it is whole-file reads and writes plus JSON parsing and printing, which is I/O and foreign library code.
- The HTTP handlers (src/controllers/cards.controller.ts) and the routing (src/server.ts) are left out: they are Express plumbing. The bodies of `postCard` and `deleteCard` are not part of this model.
- Immutability of the inputs to the formatter has no member. Dafny sequences and datatype values are immutable, so no function here can change its arguments. Every result is a new value.
- JavaScript number semantics are not modelled: precision loss above 2^53, exponent notation from 10^21 on, and `+s` accepting whitespace, signs, `0x…`, exponents and fractions. Suffixes are restricted to plain digit strings and values are unbounded naturals.
- NewCardIdRoundTrip: holds in JavaScript only while the largest suffix plus one is below 2^53; beyond that `maxId + 1` is rounded, and the model's unbounded naturals do not round.
- NewCardIdFresh: holds in JavaScript only while the largest suffix plus one is below 2^53. With an existing id `card9007199254740992`, `maxId + 1` rounds back to 2^53 and the source returns that same existing id; the model, on unbounded naturals, returns `card9007199254740993`.
- `Math.max(...cardIds)` throws a RangeError once the list exceeds the engine's limit on call arguments; the model has no such limit, and `Max` is defined for lists of every length.
- Strings.PadStart: models a one-character pad string only, which is the only form the source uses.
- The degenerate results of `generateNewCardId` for an empty list (`Math.max()` is `-Infinity`) or a non-numeric suffix (`NaN`) are excluded by its precondition, not modelled.
