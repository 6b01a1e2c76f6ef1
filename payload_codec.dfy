/**
 * `JSON.stringify` / `JSON.parse` of the nutrition payload, which both
 * storage backends keep in the meal record's `data` column. The JSON text is
 * represented by its token sequence (lexing of characters is abstracted):
 * an object opens with `TObj` and lists its fields in a fixed order, an array
 * opens with `TArr(n)`, and a missing number is written as `TNull`.
 */
module PayloadCodec {
  import opened Base
  import opened Nutrition

  datatype Tok = TNull | TNum(num: real) | TStr(str: string) | TArr(len: nat) | TObj

  datatype ParseError = ParseError

  // ----- Serialisation -------------------------------------------------------

  function NumTok(x: Option<real>): Tok {
    if x.Some? then TNum(x.value) else TNull
  }

  function EncodeTotals(t: Totals): (ts: seq<Tok>)
    ensures |ts| == 9
  {
    [TObj, NumTok(t.calories), NumTok(t.protein), NumTok(t.carbs), NumTok(t.fats),
     NumTok(t.sugar), NumTok(t.fiber), NumTok(t.sodium), NumTok(t.cholesterol)]
  }

  function EncodeItem(i: FoodItem): (ts: seq<Tok>)
    ensures |ts| == 14
  {
    [TObj, TStr(i.name), TNum(i.quantity), TStr(i.unit)] + EncodeTotals(i.nutrients) + [TStr(i.portion)]
  }

  function EncodeItems(items: seq<FoodItem>): seq<Tok> {
    if items == [] then [] else EncodeItem(items[0]) + EncodeItems(items[1..])
  }

  function EncodeTotal(total: Option<Totals>): seq<Tok> {
    if total.Some? then EncodeTotals(total.value) else [TNull]
  }

  /** `JSON.stringify(analysis)`. */
  function Encode(a: Analysis): seq<Tok> {
    [TObj, TArr(|a.items|)] + EncodeItems(a.items) + EncodeTotal(a.total) + [TStr(a.description)]
  }

  // ----- Parsing ---------------------------------------------------------------

  predicate IsNumTok(t: Tok) { t.TNull? || t.TNum? }

  function NumOf(t: Tok): Option<real> {
    if t.TNum? then Some(t.num) else None
  }

  function DecodeTotals(ts: seq<Tok>): Option<(Totals, seq<Tok>)> {
    if |ts| >= 9 && ts[0] == TObj && forall k | 1 <= k < 9 :: IsNumTok(ts[k]) then
      Some((Totals(NumOf(ts[1]), NumOf(ts[2]), NumOf(ts[3]), NumOf(ts[4]),
                   NumOf(ts[5]), NumOf(ts[6]), NumOf(ts[7]), NumOf(ts[8])), ts[9..]))
    else
      None
  }

  function DecodeItem(ts: seq<Tok>): Option<(FoodItem, seq<Tok>)> {
    if |ts| >= 14 && ts[0] == TObj && ts[1].TStr? && ts[2].TNum? && ts[3].TStr? && ts[13].TStr? then
      var n :- DecodeTotals(ts[4..13]);
      if n.1 == [] then
        Some((FoodItem(ts[1].str, ts[2].num, ts[3].str, n.0, ts[13].str), ts[14..]))
      else
        None
    else
      None
  }

  function DecodeItems(count: nat, ts: seq<Tok>): Option<(seq<FoodItem>, seq<Tok>)>
    decreases count
  {
    if count == 0 then
      Some(([], ts))
    else
      var first :- DecodeItem(ts);
      var others :- DecodeItems(count - 1, first.1);
      Some(([first.0] + others.0, others.1))
  }

  function DecodeTotal(ts: seq<Tok>): Option<(Option<Totals>, seq<Tok>)> {
    if |ts| > 0 && ts[0] == TNull then
      Some((None, ts[1..]))
    else
      var t :- DecodeTotals(ts);
      Some((Some(t.0), t.1))
  }

  /**
   * `JSON.parse(text)`: fails on anything that is not a whole payload, and
   * succeeds only on text the encoder produces.
   */
  function Decode(ts: seq<Tok>): (r: Result<Analysis, ParseError>)
    ensures r.Success? ==> Encode(r.value) == ts
  {
    if |ts| >= 2 && ts[0] == TObj && ts[1].TArr? then
      DecodeItemsParsesEncoding(ts[1].len, ts[2..]);
      match DecodeItems(ts[1].len, ts[2..])
      case None => Failure(ParseError)
      case Some(p) =>
        DecodeTotalParsesEncoding(p.1);
        match DecodeTotal(p.1)
        case None => Failure(ParseError)
        case Some(q) =>
          if |q.1| == 1 && q.1[0].TStr? then
            WholePayloadParsesEncoding(ts, p.0, p.1, q.0, q.1);
            Success(Analysis(p.0, q.0, q.1[0].str))
          else Failure(ParseError)
    else
      Failure(ParseError)
  }

  // ----- Only serialisations parse ------------------------------------------------

  lemma DecodeTotalsParsesEncoding(ts: seq<Tok>)
    ensures var r := DecodeTotals(ts); r.Some? ==> ts == EncodeTotals(r.value.0) + r.value.1
  {
    if DecodeTotals(ts).Some? {
      assert ts[..9] == EncodeTotals(DecodeTotals(ts).value.0);
      assert ts == ts[..9] + ts[9..];
    }
  }

  lemma DecodeItemParsesEncoding(ts: seq<Tok>)
    ensures var r := DecodeItem(ts); r.Some? ==> ts == EncodeItem(r.value.0) + r.value.1
  {
    if DecodeItem(ts).Some? {
      DecodeTotalsParsesEncoding(ts[4..13]);
      assert ts[4..13] == EncodeTotals(DecodeItem(ts).value.0.nutrients);
      assert ts[..14] == [ts[0], ts[1], ts[2], ts[3]] + ts[4..13] + [ts[13]];
      assert ts == ts[..14] + ts[14..];
    }
  }

  lemma {:induction false} DecodeItemsParsesEncoding(count: nat, ts: seq<Tok>)
    ensures var r := DecodeItems(count, ts);
      r.Some? ==> |r.value.0| == count && ts == EncodeItems(r.value.0) + r.value.1
    decreases count
  {
    if count > 0 && DecodeItems(count, ts).Some? {
      DecodeItemParsesEncoding(ts);
      var first := DecodeItem(ts).value;
      DecodeItemsParsesEncoding(count - 1, first.1);
      var others := DecodeItems(count - 1, first.1).value;
      var items := [first.0] + others.0;
      assert items[1..] == others.0;
      ConcatAssoc(EncodeItem(first.0), EncodeItems(others.0), others.1);
    }
  }

  lemma DecodeTotalParsesEncoding(ts: seq<Tok>)
    ensures var r := DecodeTotal(ts); r.Some? ==> ts == EncodeTotal(r.value.0) + r.value.1
  {
    if |ts| > 0 && ts[0] == TNull {
      assert ts == [TNull] + ts[1..];
    } else {
      DecodeTotalsParsesEncoding(ts);
    }
  }

  /** The pieces the parser consumed put back together are the serialised payload. */
  lemma WholePayloadParsesEncoding(ts: seq<Tok>, items: seq<FoodItem>, r1: seq<Tok>,
                                   total: Option<Totals>, r2: seq<Tok>)
    requires |ts| >= 2 && ts[0] == TObj && ts[1] == TArr(|items|)
    requires ts[2..] == EncodeItems(items) + r1 && r1 == EncodeTotal(total) + r2
    requires |r2| == 1 && r2[0].TStr?
    ensures Encode(Analysis(items, total, r2[0].str)) == ts
  {
    assert r2 == [TStr(r2[0].str)];
    assert ts == [ts[0], ts[1]] + ts[2..];
  }

  // ----- Round trip ------------------------------------------------------------

  lemma TotalsRoundTrip(t: Totals, rest: seq<Tok>)
    ensures DecodeTotals(EncodeTotals(t) + rest) == Some((t, rest))
  {
    var ts := EncodeTotals(t) + rest;
    assert ts[9..] == rest;
  }

  lemma ItemRoundTrip(i: FoodItem, rest: seq<Tok>)
    ensures DecodeItem(EncodeItem(i) + rest) == Some((i, rest))
  {
    var ts := EncodeItem(i) + rest;
    assert ts[4..13] == EncodeTotals(i.nutrients) + [];
    TotalsRoundTrip(i.nutrients, []);
    assert ts[14..] == rest;
  }

  lemma {:induction false} ItemsRoundTrip(items: seq<FoodItem>, rest: seq<Tok>)
    ensures DecodeItems(|items|, EncodeItems(items) + rest) == Some((items, rest))
    decreases |items|
  {
    if items != [] {
      var tail := EncodeItems(items[1..]) + rest;
      ConcatAssoc(EncodeItem(items[0]), EncodeItems(items[1..]), rest);
      ItemRoundTrip(items[0], tail);
      ItemsRoundTrip(items[1..], rest);
      assert |items[1..]| == |items| - 1;
      assert [items[0]] + items[1..] == items;
    } else {
      assert EncodeItems(items) + rest == rest;
    }
  }

  lemma ConcatAssoc(a: seq<Tok>, b: seq<Tok>, c: seq<Tok>)
    ensures (a + b) + c == a + (b + c)
  {
  }

  lemma TotalRoundTrip(total: Option<Totals>, rest: seq<Tok>)
    ensures DecodeTotal(EncodeTotal(total) + rest) == Some((total, rest))
  {
    if total.Some? {
      TotalsRoundTrip(total.value, rest);
    } else {
      assert (EncodeTotal(total) + rest)[1..] == rest;
    }
  }

  /** Parsing what was serialised gives the payload back. */
  lemma RoundTrip(a: Analysis)
    ensures Decode(Encode(a)) == Success(a)
  {
    var tail := EncodeTotal(a.total) + [TStr(a.description)];
    assert Encode(a)[2..] == EncodeItems(a.items) + tail;
    ItemsRoundTrip(a.items, tail);
    TotalRoundTrip(a.total, [TStr(a.description)]);
  }

  /** A text parses to a payload exactly when it is that payload's serialisation. */
  lemma DecodeInvertsEncode(ts: seq<Tok>, a: Analysis)
    ensures Decode(ts) == Success(a) <==> ts == Encode(a)
  {
    if ts == Encode(a) {
      RoundTrip(a);
    }
  }

  /** Distinct payloads serialise to distinct texts. */
  lemma EncodeInjective(a: Analysis, b: Analysis)
    requires Encode(a) == Encode(b)
    ensures a == b
  {
    RoundTrip(a);
    RoundTrip(b);
  }
}
