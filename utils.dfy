/**
 * The card formatter and the card id generator of src/utils/utils.ts.
 */
module Utils {
  import opened Wrappers
  import opened Types
  import opened Strings
  import opened Decimal

  // ---------------------------------------------------------------------
  // Formatter
  // ---------------------------------------------------------------------

  /** `i` is the position of the first template whose id is `templateId`. */
  predicate IsFirstMatch(templates: seq<Template>, templateId: string, i: int) {
    && 0 <= i < |templates|
    && templates[i].id == templateId
    && forall j :: 0 <= j < i ==> templates[j].id != templateId
  }

  /** `templates.find(t => t.id === templateId)`. */
  function FindTemplate(templates: seq<Template>, templateId: string): (r: Option<Template>)
    ensures r.None? <==> forall i :: 0 <= i < |templates| ==> templates[i].id != templateId
    ensures r.Some? ==> exists i :: IsFirstMatch(templates, templateId, i) && templates[i] == r.value
  {
    if templates == [] then None
    else if templates[0].id == templateId then
      assert IsFirstMatch(templates, templateId, 0);
      Some(templates[0])
    else
      var r := FindTemplate(templates[1..], templateId);
      assert r.Some? ==> exists i :: IsFirstMatch(templates, templateId, i) && templates[i] == r.value by {
        if r.Some? {
          var k :| IsFirstMatch(templates[1..], templateId, k) && templates[1..][k] == r.value;
          assert IsFirstMatch(templates, templateId, k + 1);
        }
      }
      r
  }

  /**
   * `formatCard`: the card's title and id with the cover image of the first
   * template that its first page names, or "" when there is none. The first
   * page is only looked at while searching, so an empty template list needs
   * no page. (`template?.imageUrl || ""` maps a found template whose
   * `imageUrl` is "" to "" too, which is its own `imageUrl`.)
   */
  function FormatCard(card: Card, templates: seq<Template>): (r: FormattedCard)
    requires |templates| == 0 || |card.pages| > 0
    ensures r.title == card.title && r.cardId == card.id
    ensures |templates| == 0 ==> r.imageUrl == ""
    ensures |templates| > 0 ==>
      forall i :: IsFirstMatch(templates, card.pages[0].templateId, i) ==> r.imageUrl == templates[i].imageUrl
    ensures |templates| > 0 && (forall i :: 0 <= i < |templates| ==> templates[i].id != card.pages[0].templateId) ==>
      r.imageUrl == ""
  {
    var template := if |templates| == 0 then None else FindTemplate(templates, card.pages[0].templateId);
    var imageUrl := match template
      case Some(t) => t.imageUrl
      case None => "";
    FormattedCard(card.title, imageUrl, card.id)
  }

  /** Every card can be formatted against `templates` without reading a missing page. */
  predicate Formattable(cards: seq<Card>, templates: seq<Template>) {
    |templates| > 0 ==> forall i :: 0 <= i < |cards| ==> |cards[i].pages| > 0
  }

  /**
   * `formatCardsResponse`: nothing when either list is empty, otherwise every
   * card formatted, in order. Entry `i` then carries card `i`'s title and id,
   * and `FormatCard` says which cover image.
   */
  function FormatCardsResponse(cards: seq<Card>, templates: seq<Template>): (r: seq<FormattedCard>)
    requires Formattable(cards, templates)
    ensures r == [] <==> |cards| == 0 || |templates| == 0
    ensures |cards| > 0 && |templates| > 0 ==> |r| == |cards|
    ensures forall i :: 0 <= i < |r| ==>
      && r[i] == FormatCard(cards[i], templates)
      && r[i].title == cards[i].title
      && r[i].cardId == cards[i].id
  {
    if |cards| == 0 || |templates| == 0 then []
    else seq(|cards|, i requires 0 <= i < |cards| => FormatCard(cards[i], templates))
  }

  // ---------------------------------------------------------------------
  // Id generator
  // ---------------------------------------------------------------------

  const Prefix: string := "card"

  /** `id.substring(4)`: the characters after position 4, "" for a shorter id. */
  function Suffix(id: string): (s: string)
    ensures |id| >= 4 ==> id == id[..4] + s
    ensures |id| <= 4 ==> s == ""
  {
    if |id| <= 4 then "" else id[4..]
  }

  /**
   * Every character of `id` lies in the Basic Multilingual Plane, so it is one
   * UTF-16 code unit and positions in the model are JavaScript string indices.
   */
  predicate InBmp(id: string) {
    forall k :: 0 <= k < |id| ==> (id[k] as int) < 0x1_0000
  }

  /** Every card id is made of BMP characters and its suffix is a plain string of decimal digits. */
  predicate NumericIds(cards: seq<Card>) {
    forall i :: 0 <= i < |cards| ==> InBmp(cards[i].id) && IsDigits(Suffix(cards[i].id))
  }

  /** `cards.map(card => +card.id.substring(4))`. */
  function SuffixValues(cards: seq<Card>): (vs: seq<nat>)
    requires NumericIds(cards)
    ensures |vs| == |cards|
    ensures forall i :: 0 <= i < |cards| ==> vs[i] == DigitsToNat(Suffix(cards[i].id))
  {
    seq(|cards|, i requires 0 <= i < |cards| => DigitsToNat(Suffix(cards[i].id)))
  }

  /** `Math.max(...xs)` for a non-empty list. */
  function Max(xs: seq<nat>): (m: nat)
    requires |xs| > 0
    ensures m in xs
    ensures forall i :: 0 <= i < |xs| ==> xs[i] <= m
  {
    if |xs| == 1 then xs[0]
    else
      var rest := Max(xs[1..]);
      if xs[0] >= rest then xs[0] else rest
  }

  /** `generateNewCardId`: "card" followed by the largest suffix plus one, zero-padded to 3 digits. */
  function GenerateNewCardId(cards: seq<Card>): (r: string)
    requires |cards| > 0 && NumericIds(cards)
    ensures |r| >= 7 && r[..4] == "card" && IsDigits(r[4..])
  {
    var n := Max(SuffixValues(cards)) + 1;
    PaddedNumberLength(n);
    Prefix + PadStart(NatToDigits(n), 3, '0')
  }

  /**
   * `n.toString().padStart(3, "0")` is a digit string of at least 3
   * characters, and exactly 3 when `n < 1000`.
   */
  lemma PaddedNumberLength(n: nat)
    ensures var p := PadStart(NatToDigits(n), 3, '0');
      IsDigits(p) && |p| >= 3 && (|p| == 3 <==> n < 1000)
  {
    ZeroPadded(NatToDigits(n), 3);
    PrintedLength(n, 3);
    assert Pow10(3) == 1000;
  }

  /** `+n.toString().padStart(3, "0")` is `n` again. */
  lemma PaddedNumberValue(n: nat)
    ensures var p := PadStart(NatToDigits(n), 3, '0');
      IsDigits(p) && DigitsToNat(p) == n
  {
    ZeroPadded(NatToDigits(n), 3);
    ParsePrinted(n);
  }

  /**
   * The new id is "card" and a digit string of at least 3 characters, exactly
   * 3 (the shape `cardNNN`) precisely when the largest existing suffix is
   * below 999.
   */
  lemma NewCardIdFormat(cards: seq<Card>)
    requires |cards| > 0 && NumericIds(cards)
    ensures var r := GenerateNewCardId(cards);
      && |r| >= 7
      && r[..4] == "card"
      && IsDigits(r[4..])
      && (|r| == 7 <==> Max(SuffixValues(cards)) < 999)
  {
    var m := Max(SuffixValues(cards));
    var padded := PadStart(NatToDigits(m + 1), 3, '0');
    PaddedNumberLength(m + 1);
    assert GenerateNewCardId(cards) == Prefix + padded;
  }

  /** Reading the new id back as `+id.substring(4)` gives the largest existing suffix plus one. */
  lemma NewCardIdRoundTrip(cards: seq<Card>)
    requires |cards| > 0 && NumericIds(cards)
    ensures var s := Suffix(GenerateNewCardId(cards));
      IsDigits(s) && DigitsToNat(s) == Max(SuffixValues(cards)) + 1
  {
    var m := Max(SuffixValues(cards));
    var padded := PadStart(NatToDigits(m + 1), 3, '0');
    PaddedNumberValue(m + 1);
    assert GenerateNewCardId(cards) == Prefix + padded;
    assert Suffix(Prefix + padded) == padded;
  }

  /**
   * The new suffix is larger than every existing one, so the new id is
   * none of the existing ids.
   */
  lemma NewCardIdFresh(cards: seq<Card>)
    requires |cards| > 0 && NumericIds(cards)
    ensures var s := Suffix(GenerateNewCardId(cards));
      IsDigits(s) && forall i :: 0 <= i < |cards| ==> DigitsToNat(Suffix(cards[i].id)) < DigitsToNat(s)
    ensures forall i :: 0 <= i < |cards| ==> cards[i].id != GenerateNewCardId(cards)
  {
    NewCardIdRoundTrip(cards);
    var vs := SuffixValues(cards);
    forall i | 0 <= i < |cards|
      ensures cards[i].id != GenerateNewCardId(cards)
    {
      assert vs[i] <= Max(vs);
    }
  }

  /** Any two cards with ids card001 and card002 get card003 as the next id. */
  lemma NewCardIdExample(cards: seq<Card>)
    requires |cards| == 2 && cards[0].id == "card001" && cards[1].id == "card002"
    ensures NumericIds(cards) && GenerateNewCardId(cards) == "card003"
  {
    ExampleSuffixValues(cards);
    assert Max([1, 2]) == 2;
    assert NatToDigits(3) == "3";
    assert GenerateNewCardId(cards) == Prefix + PadStart("3", 3, '0');
  }

  lemma ExampleSuffixValues(cards: seq<Card>)
    requires |cards| == 2 && cards[0].id == "card001" && cards[1].id == "card002"
    ensures NumericIds(cards) && SuffixValues(cards) == [1, 2]
  {
    assert Suffix(cards[0].id) == "001" && Suffix(cards[1].id) == "002";
    assert "001"[..2] == "00" && "002"[..2] == "00" && "00"[..1] == "0" && "0"[..0] == "";
    assert DigitsToNat("001") == 1 && DigitsToNat("002") == 2;
    var vs := SuffixValues(cards);
    assert vs[0] == 1 && vs[1] == 2;
  }
}
