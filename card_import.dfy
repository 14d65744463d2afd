/**
 * Loading cards: what `importCardsFromJSON` does with the parsed file.  An array keeps, in order,
 * its non-null objects that have a `cardType` property, each normalised; a lone such object is a
 * one-card list; anything else, or an array without a card object, is refused.
 */
module CardImport {
  import opened Wrappers
  import opened Js
  import opened CardTypes
  import opened InputNormalizer

  /** Why an import is refused: neither an array nor a card object, or an array holding no card object. */
  datatype ImportError = InvalidFormat | NoValidCards

  /** A non-null object that has a `cardType` property. */
  predicate IsCardObject(v: Value) {
    v.JObj? && "cardType" in v.fields
  }

  /** The array's card objects, in their order. */
  function CardItems(items: seq<Value>): (r: seq<Value>)
    ensures |r| <= |items|
    ensures forall v :: v in r <==> v in items && IsCardObject(v)
  {
    if items == [] then []
    else (if IsCardObject(items[0]) then [items[0]] else []) + CardItems(items[1..])
  }

  /** Each selected object normalised; the `i`-th card takes `freshId(i)` should it lack an id. */
  function NormalizeEach(items: seq<Value>, freshId: nat -> string): (cards: seq<Card>)
    ensures |cards| == |items|
    ensures forall i :: 0 <= i < |items| ==> cards[i] == Normalize(items[i], freshId(i))
  {
    seq(|items|, i requires 0 <= i < |items| => Normalize(items[i], freshId(i)))
  }

  /**
   * The selection after `JSON.parse`: an array gives its card objects normalised, or an error when
   * it has none; a lone card object gives a one-card list; anything else is an error.
   */
  function SelectCards(parsed: Value, freshId: nat -> string): (r: Result<seq<Card>, ImportError>)
    ensures r.Ok? ==> |r.value| >= 1
    ensures r.Err? ==> (r.error == InvalidFormat <==> !parsed.JArr?)
  {
    if !parsed.JArr? then
      if IsCardObject(parsed) then Ok([Normalize(parsed, freshId(0))]) else Err(InvalidFormat)
    else
      var valid := CardItems(parsed.items);
      if |valid| == 0 then Err(NoValidCards) else Ok(NormalizeEach(valid, freshId))
  }

  /** Selection keeps order: the card objects of two runs of items are those of each run, in turn. */
  lemma {:induction false} CardItemsAppend(a: seq<Value>, b: seq<Value>)
    ensures CardItems(a + b) == CardItems(a) + CardItems(b)
    decreases |a|
  {
    if a == [] {
      assert a + b == b;
    } else {
      assert (a + b)[0] == a[0];
      assert (a + b)[1..] == a[1..] + b;
      CardItemsAppend(a[1..], b);
    }
  }

  /** An array made only of card objects is selected whole. */
  lemma {:induction false} CardItemsAll(items: seq<Value>)
    requires forall v :: v in items ==> IsCardObject(v)
    ensures CardItems(items) == items
    decreases |items|
  {
    if items != [] {
      assert forall v :: v in items[1..] ==> v in items;
      CardItemsAll(items[1..]);
    }
  }

  /** An import fails exactly in the two ways the source rejects: wrong shape, or no card object in the array. */
  lemma ImportErrors(parsed: Value, freshId: nat -> string)
    ensures SelectCards(parsed, freshId) == Err(InvalidFormat) <==> !parsed.JArr? && !IsCardObject(parsed)
    ensures SelectCards(parsed, freshId) == Err(NoValidCards) <==>
              parsed.JArr? && forall v :: v in parsed.items ==> !IsCardObject(v)
  {
    if parsed.JArr? && CardItems(parsed.items) != [] {
      assert CardItems(parsed.items)[0] in CardItems(parsed.items);
    }
  }

  /** A successful import has one card per card object of the input, each a normalised card. */
  lemma ImportCards(parsed: Value, freshId: nat -> string)
    requires SelectCards(parsed, freshId).Ok?
    ensures var cards := SelectCards(parsed, freshId).value;
            |cards| >= 1
            && (parsed.JArr? ==> |cards| == |CardItems(parsed.items)| <= |parsed.items|)
            && (!parsed.JArr? ==> |cards| == 1)
            && forall i :: 0 <= i < |cards| ==> Normal(cards[i])
  {
    var cards := SelectCards(parsed, freshId).value;
    forall i | 0 <= i < |cards|
      ensures Normal(cards[i])
    {
      if parsed.JArr? {
        NormalizeIsNormal(CardItems(parsed.items)[i], freshId(i));
      } else {
        NormalizeIsNormal(parsed, freshId(0));
      }
    }
  }

  /** The object a card writes has a `cardType` property. */
  lemma CardObjectIsCardObject(c: Card)
    ensures IsCardObject(ToObject(CardToJson(c)))
  {
    assert Key(FCardType) == "cardType";
    assert FCardType in CardToJson(c);
  }

  /** Importing the object of a normalised card with an id gives back that card. */
  lemma ImportSingleCard(c: Card, freshId: nat -> string)
    requires Normal(c) && c.id != ""
    ensures SelectCards(ToObject(CardToJson(c)), freshId) == Ok([c])
  {
    CardObjectIsCardObject(c);
    NormalizeCardObject(c, freshId(0));
  }

  /** The objects of a list of cards, in order. */
  function CardObjects(cards: seq<Card>): (items: seq<Value>)
    ensures |items| == |cards|
    ensures forall i :: 0 <= i < |cards| ==> items[i] == ToObject(CardToJson(cards[i]))
  {
    seq(|cards|, i requires 0 <= i < |cards| => ToObject(CardToJson(cards[i])))
  }

  /** The objects of a list of cards are all card objects, so all are selected. */
  lemma CardObjectsSelected(cards: seq<Card>)
    ensures CardItems(CardObjects(cards)) == CardObjects(cards)
  {
    var items := CardObjects(cards);
    forall v | v in items
      ensures IsCardObject(v)
    {
      var i :| 0 <= i < |items| && items[i] == v;
      CardObjectIsCardObject(cards[i]);
    }
    CardItemsAll(items);
  }

  /** Normalising the objects of normalised cards with ids gives back the cards. */
  lemma NormalizeObjects(cards: seq<Card>, freshId: nat -> string)
    requires forall i :: 0 <= i < |cards| ==> Normal(cards[i]) && cards[i].id != ""
    ensures NormalizeEach(CardObjects(cards), freshId) == cards
  {
    var result := NormalizeEach(CardObjects(cards), freshId);
    forall i | 0 <= i < |cards|
      ensures result[i] == cards[i]
    {
      NormalizeCardObject(cards[i], freshId(i));
    }
  }

  /** Importing an array of the objects of normalised cards with ids gives back those cards, in order. */
  lemma ImportCardList(cards: seq<Card>, freshId: nat -> string)
    requires |cards| >= 1
    requires forall i :: 0 <= i < |cards| ==> Normal(cards[i]) && cards[i].id != ""
    ensures SelectCards(JArr(CardObjects(cards)), freshId) == Ok(cards)
  {
    CardObjectsSelected(cards);
    NormalizeObjects(cards, freshId);
  }
}
