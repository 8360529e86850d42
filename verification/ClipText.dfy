/** What is hashed, character by character. */
module ClipText {
  import opened Options
  import opened CanonicalJson
  import opened ClipId
  import Sorting

  /** ASCII text without quotes and backslashes, which is written as it is. */
  predicate Bare(t: Text) {
    forall i :: 0 <= i < |t| ==> 0x20 <= t[i] < 0x80 && t[i] != QUOTE && t[i] != BACKSLASH
  }

  lemma {:induction false} BareUnescaped(t: Text)
    requires Bare(t)
    ensures Escape(t) == t
  {
    if t != [] {
      BareUnescaped(t[1..]);
      assert t == [t[0]] + t[1..];
    }
  }

  /** The punctuation of JSON and the keys of a request. */
  lemma Spelling()
    ensures Ascii("\":,\\{}[]")
         == [QUOTE, COLON, COMMA, BACKSLASH, OPEN_OBJECT, CLOSE_OBJECT, OPEN_ARRAY, CLOSE_ARRAY]
    ensures NULL_TEXT == Ascii("null") && TRUE_TEXT == Ascii("true") && FALSE_TEXT == Ascii("false")
    ensures EndKey() == Ascii("end_ms") && FormatKey() == Ascii("format") && MatchIdKey() == Ascii("match_id")
    ensures OverlayKey() == Ascii("overlay") && SrcKey() == Ascii("src") && StartKey() == Ascii("start_ms")
    ensures LanguageKey() == Ascii("language") && MinuteKey() == Ascii("minute")
    ensures ScorelineKey() == Ascii("scoreline") && ScorerKey() == Ascii("scorer")
    ensures FormatText(Portrait) == Ascii("9:16") && FormatText(Square) == Ascii("1:1")
    ensures FormatText(Landscape) == Ascii("16:9")
  {
  }

  lemma DigitsSpelled(d: Nibble)
    ensures HexDigit(d) == Ascii("0123456789abcdef")[d]
  {
  }

  /** How a unit that is not half of a pair is written inside a string: quote and
      backslash behind a backslash, five control units by a letter, the others
      and a lone surrogate by four hexadecimal digits, anything else as it is. */
  lemma UnitSpelled(u: CodeUnit)
    ensures
      var text := EscapeUnit(u);
      if u == QUOTE || u == BACKSLASH then text == [BACKSLASH, u]
      else if u == 0x08 then text == Ascii("\\b")
      else if u == 0x09 then text == Ascii("\\t")
      else if u == 0x0A then text == Ascii("\\n")
      else if u == 0x0C then text == Ascii("\\f")
      else if u == 0x0D then text == Ascii("\\r")
      else if u < 0x20 || 0xD800 <= u < 0xE000 then
        var hex := Ascii("0123456789abcdef");
        text == Ascii("\\u") + [hex[u / 4096], hex[u / 256 % 16], hex[u / 16 % 16], hex[u % 16]]
      else text == [u]
  {
    hide HexDigit;
    DigitsSpelled(u / 4096);
    DigitsSpelled(u / 256 % 16);
    DigitsSpelled(u / 16 % 16);
    DigitsSpelled(u % 16);
    assert Ascii("\\u") == [BACKSLASH, LETTER_U];
  }

  lemma KeysBare()
    ensures Bare(EndKey()) && Bare(FormatKey()) && Bare(MatchIdKey()) && Bare(OverlayKey()) && Bare(SrcKey())
    ensures Bare(StartKey()) && Bare(LanguageKey()) && Bare(MinuteKey()) && Bare(ScorelineKey()) && Bare(ScorerKey())
  {
  }

  /** A bare key as it is written, with its colon, and what comes after it. */
  function Member(key: Text, value: Text): Text {
    [QUOTE] + key + [QUOTE, COLON] + value
  }

  lemma EntryIsMember(key: Text, value: Text)
    requires Bare(key)
    ensures Entry(Printed(key, value)) == Member(key, value)
  {
    BareUnescaped(key);
  }

  // ---------- sorted fields ----------

  /** Fields in key order are what sorting any arrangement of them gives. */
  lemma SortsTo<N(!new)>(f: seq<Field<N>>, g: seq<Field<N>>)
    requires DistinctKeys(f) && DistinctKeys(g) && |f| == |g| && forall x :: x in f ==> x in g
    requires Sorting.Sorted(g, FieldLe)
    ensures Sorting.StableSort(f, FieldLe) == g
  {
    hide Sorting.StableSort, KeyLe;
    SortedAlike(f, g);
    FieldOrder<N>();
    Sorting.StableSortSorted(g, FieldLe);
    forall a, b | a in g && b in g && FieldLe(a, b) && FieldLe(b, a)
      ensures a == b
    {
      KeyLeTotal(a.key, b.key);
    }
    Sorting.SortedUnique(Sorting.StableSort(g, FieldLe), g, FieldLe);
  }

  /** Keys that differ first at position `k`, the smaller unit first. */
  lemma {:induction false} KeyBefore(a: Text, b: Text, k: nat)
    requires k < |a| && k < |b| && a[..k] == b[..k] && a[k] < b[k]
    ensures KeyLe(a, b) && a != b
  {
    if k > 0 {
      assert a[0] == a[..k][0] == b[..k][0] == b[0];
      assert a[1..][..k - 1] == a[..k][1..] && b[1..][..k - 1] == b[..k][1..];
      KeyBefore(a[1..], b[1..], k - 1);
    }
  }

  lemma OverlayKeysInOrder()
    ensures
      var a, b, c, d := LanguageKey(), MinuteKey(), ScorelineKey(), ScorerKey();
      && KeyLe(a, b) && KeyLe(a, c) && KeyLe(a, d) && KeyLe(b, c) && KeyLe(b, d) && KeyLe(c, d)
      && a != b && a != c && a != d && b != c && b != d && c != d
  {
    hide KeyLe;
    var a, b, c, d := LanguageKey(), MinuteKey(), ScorelineKey(), ScorerKey();
    KeyBefore(a, b, 0);
    KeyBefore(a, c, 0);
    KeyBefore(a, d, 0);
    KeyBefore(b, c, 0);
    KeyBefore(b, d, 0);
    assert c[..4] == Ascii("scor") && d[..4] == Ascii("scor") && c[4] == 'e' as int && d[4] == 'e' as int;
    assert c[..5] == d[..5];
    KeyBefore(c, d, 5);
  }

  lemma RequestKeysInOrder()
    ensures
      var a, b, c, d, e, f := EndKey(), FormatKey(), MatchIdKey(), OverlayKey(), SrcKey(), StartKey();
      && KeyLe(a, b) && KeyLe(a, c) && KeyLe(a, d) && KeyLe(a, e) && KeyLe(a, f)
      && KeyLe(b, c) && KeyLe(b, d) && KeyLe(b, e) && KeyLe(b, f)
      && KeyLe(c, d) && KeyLe(c, e) && KeyLe(c, f) && KeyLe(d, e) && KeyLe(d, f) && KeyLe(e, f)
      && a != b && a != c && a != d && a != e && a != f && b != c && b != d && b != e && b != f
      && c != d && c != e && c != f && d != e && d != f && e != f
  {
    hide KeyLe;
    var a, b, c, d, e, f := EndKey(), FormatKey(), MatchIdKey(), OverlayKey(), SrcKey(), StartKey();
    KeyBefore(a, b, 0);
    KeyBefore(a, c, 0);
    KeyBefore(a, d, 0);
    KeyBefore(a, e, 0);
    KeyBefore(a, f, 0);
    KeyBefore(b, c, 0);
    KeyBefore(b, d, 0);
    KeyBefore(b, e, 0);
    KeyBefore(b, f, 0);
    KeyBefore(c, d, 0);
    KeyBefore(c, e, 0);
    KeyBefore(c, f, 0);
    KeyBefore(d, e, 0);
    KeyBefore(d, f, 0);
    assert e[..1] == f[..1];
    KeyBefore(e, f, 1);
  }

  // ---------- printed lists ----------

  /** The texts of the fields of an object. */
  function FieldTexts<N(!new)>(num: Numerals<N>, fields: seq<Field<N>>): seq<Text> {
    Entries(PlainFields(num, fields))
  }

  lemma TextsOfMore<N(!new)>(num: Numerals<N>, f: Field<N>, rest: seq<Field<N>>)
    ensures FieldTexts(num, [f] + rest) == [Entry(Printed(f.key, Plain(num, f.value)))] + FieldTexts(num, rest)
  {
    assert ([f] + rest)[1..] == rest;
  }

  lemma TextsOfBoth<N(!new)>(num: Numerals<N>, f: seq<Field<N>>, g: seq<Field<N>>)
    ensures FieldTexts(num, f + g) == FieldTexts(num, f) + FieldTexts(num, g)
    decreases |f|
  {
    hide FieldTexts;
    if f == [] {
      assert f + g == g;
      TextsOfNone(num);
    } else {
      assert f == [f[0]] + f[1..] && f + g == [f[0]] + (f[1..] + g);
      TextsOfMore(num, f[0], f[1..]);
      TextsOfMore(num, f[0], f[1..] + g);
      TextsOfBoth(num, f[1..], g);
    }
  }

  lemma TextsOfNone<N(!new)>(num: Numerals<N>)
    ensures FieldTexts(num, []) == []
  {
  }

  lemma TextOfOne<N(!new)>(num: Numerals<N>, f: Field<N>)
    ensures FieldTexts(num, [f]) == [Entry(Printed(f.key, Plain(num, f.value)))]
  {
    TextsOfMore(num, f, []);
    assert [f] + [] == [f];
  }

  // ---------- the overlay ----------

  function GivenText(key: Text, value: Option<Text>): seq<Text> {
    if value.Some? then [Member(key, Quote(value.value))] else []
  }

  /** The parts that are there, in the order of their keys. */
  function PartTexts(o: ClipOverlay): seq<Text> {
    GivenText(LanguageKey(), o.language) + GivenText(MinuteKey(), o.minute)
    + GivenText(ScorelineKey(), o.scoreline) + GivenText(ScorerKey(), o.scorer)
  }

  function OverlayText(overlay: Option<ClipOverlay>): Text {
    match overlay
    case None => NULL_TEXT
    case Some(o) => [OPEN_OBJECT] + Join(PartTexts(o)) + [CLOSE_OBJECT]
  }

  /** The fields of an overlay in key order. */
  function InOrder<N>(o: ClipOverlay): seq<Field<N>> {
    Given(LanguageKey(), o.language) + Given(MinuteKey(), o.minute)
    + Given(ScorelineKey(), o.scoreline) + Given(ScorerKey(), o.scorer)
  }

  lemma InOrderSorted<N(!new)>(o: ClipOverlay)
    ensures Sorting.Sorted(InOrder<N>(o), FieldLe) && DistinctKeys(InOrder<N>(o))
  {
    hide KeyLe, LanguageKey, MinuteKey, ScorelineKey, ScorerKey;
    OverlayKeysInOrder();
  }

  lemma SameParts<N(!new)>(o: ClipOverlay)
    ensures |OverlayFields<N>(o)| == |InOrder<N>(o)|
    ensures forall x :: x in OverlayFields<N>(o) ==> x in InOrder<N>(o)
  {
    hide LanguageKey, MinuteKey, ScorelineKey, ScorerKey;
  }

  lemma TextsAreNormal<N(!new)>(f: seq<Field<N>>)
    requires forall i :: 0 <= i < |f| ==> f[i].value.Str?
    ensures NormFields(f) == f
  {
    forall i | 0 <= i < |f|
      ensures NormFields(f)[i] == f[i]
    {
      NormFieldsAt(f, i);
    }
  }

  lemma OverlayInOrder<N(!new)>(o: ClipOverlay)
    ensures Norm(OverlayJson<N>(Some(o))) == Obj(InOrder<N>(o))
  {
    hide KeyLe, OverlayFields, InOrder, Sorting.Sorted, Sorting.StableSort;
    OverlayProper<N>(o);
    TextsAreNormal(OverlayFields<N>(o));
    SameParts<N>(o);
    InOrderSorted<N>(o);
    SortsTo(OverlayFields<N>(o), InOrder<N>(o));
  }

  lemma GivenTexts<N(!new)>(num: Numerals<N>, key: Text, value: Option<Text>)
    requires Bare(key)
    ensures FieldTexts(num, Given<N>(key, value)) == GivenText(key, value)
  {
    hide FieldTexts, Quote, Member, Entry;
    if value.Some? {
      TextOfOne(num, Field(key, Str(value.value)));
      EntryIsMember(key, Quote(value.value));
    } else {
      TextsOfNone(num);
    }
  }

  lemma PartsSpelled<N(!new)>(num: Numerals<N>, o: ClipOverlay)
    ensures FieldTexts(num, InOrder<N>(o)) == PartTexts(o)
  {
    hide FieldTexts, GivenText, Given, LanguageKey, MinuteKey, ScorelineKey, ScorerKey, Bare;
    KeysBare();
    var a, b := Given<N>(LanguageKey(), o.language), Given<N>(MinuteKey(), o.minute);
    var c, d := Given<N>(ScorelineKey(), o.scoreline), Given<N>(ScorerKey(), o.scorer);
    TextsOfBoth(num, a + b + c, d);
    TextsOfBoth(num, a + b, c);
    TextsOfBoth(num, a, b);
    GivenTexts(num, LanguageKey(), o.language);
    GivenTexts(num, MinuteKey(), o.minute);
    GivenTexts(num, ScorelineKey(), o.scoreline);
    GivenTexts(num, ScorerKey(), o.scorer);
  }

  lemma OverlaySpelled<N(!new)>(num: Numerals<N>, overlay: Option<ClipOverlay>)
    ensures Plain(num, Norm(OverlayJson<N>(overlay))) == OverlayText(overlay)
  {
    hide Norm, PartTexts, Join, InOrder, OverlayJson, FieldTexts, Plain;
    match overlay
    case None => NullSpelled(num);
    case Some(o) =>
      OverlayInOrder<N>(o);
      PlainObject(num, InOrder<N>(o));
      PartsSpelled(num, o);
  }

  lemma NullSpelled<N(!new)>(num: Numerals<N>)
    ensures Plain(num, Norm(OverlayJson<N>(None))) == NULL_TEXT
  {
  }

  // ---------- the request ----------

  function SrcText(src: Option<Text>): Text {
    match src
    case None => NULL_TEXT
    case Some(s) => Quote(s)
  }

  /** The normal form of the hashed object. */
  function Ordered<N>(req: ClipRequest<N>): seq<Field<N>> {
    [Field(EndKey(), Num(req.endMs)), Field(FormatKey(), Str(FormatText(req.format))),
     Field(MatchIdKey(), Str(req.matchId)), Field(OverlayKey(), Norm(OverlayJson(req.overlay))),
     Field(SrcKey(), SrcJson(req.src)), Field(StartKey(), Num(req.startMs))]
  }

  lemma RequestInOrder<N(!new)>(req: ClipRequest<N>)
    ensures Norm(RequestJson(req)) == Obj(Ordered(req))
  {
    hide KeyLe, Ordered, RequestFields, Sorting.Sorted, Sorting.StableSort;
    SameSix(req);
    OrderedSorted(req);
    SortsTo(NormFields(RequestFields(req)), Ordered(req));
  }

  lemma SameSix<N(!new)>(req: ClipRequest<N>)
    ensures DistinctKeys(NormFields(RequestFields(req))) && |NormFields(RequestFields(req))| == |Ordered(req)|
    ensures forall x :: x in NormFields(RequestFields(req)) ==> x in Ordered(req)
  {
    hide KeyLe, EndKey, FormatKey, MatchIdKey, OverlayKey, SrcKey, StartKey, OverlayJson, FormatText, NormFields;
    var f, g := RequestFields(req), Ordered(req);
    RequestKeysInOrder();
    assert DistinctKeys(f);
    NormKeepsKeys(f);
    NormFieldsAt(f, 0);
    NormFieldsAt(f, 1);
    NormFieldsAt(f, 2);
    NormFieldsAt(f, 3);
    NormFieldsAt(f, 4);
    NormFieldsAt(f, 5);
    var n := NormFields(f);
    assert n[0] == g[2] && n[1] == g[5] && n[2] == g[0] && n[3] == g[1] && n[4] == g[3] && n[5] == g[4];
    forall x | x in n
      ensures x in g
    {
      var i :| 0 <= i < 6 && n[i] == x;
    }
  }

  lemma OrderedSorted<N(!new)>(req: ClipRequest<N>)
    ensures Sorting.Sorted(Ordered(req), FieldLe) && DistinctKeys(Ordered(req))
  {
    hide KeyLe, EndKey, FormatKey, MatchIdKey, OverlayKey, SrcKey, StartKey, OverlayJson, FormatText, Norm;
    RequestKeysInOrder();
  }

  /** The text that is hashed: the six fields in key order, a missing overlay or
      source as null. */
  lemma PreimageSpelled<N(!new)>(num: Numerals<N>, req: ClipRequest<N>)
    ensures Preimage(num, req) ==
              [OPEN_OBJECT]
              + Join([Member(EndKey(), num.write(req.endMs)),
                      Member(FormatKey(), Quote(FormatText(req.format))),
                      Member(MatchIdKey(), Quote(req.matchId)),
                      Member(OverlayKey(), OverlayText(req.overlay)),
                      Member(SrcKey(), SrcText(req.src)),
                      Member(StartKey(), num.write(req.startMs))])
              + [CLOSE_OBJECT]
  {
    hide Canonicalize, Norm, Join, FieldTexts, Ordered, Plain, RequestJson, Member, OverlayText, SrcText;
    CanonicalIsPlainNorm(num, RequestJson(req));
    RequestInOrder(req);
    PlainObject(num, Ordered(req));
    SixSpelled(num, req);
  }

  lemma SixSpelled<N(!new)>(num: Numerals<N>, req: ClipRequest<N>)
    ensures FieldTexts(num, Ordered(req)) ==
              [Member(EndKey(), num.write(req.endMs)), Member(FormatKey(), Quote(FormatText(req.format))),
               Member(MatchIdKey(), Quote(req.matchId)), Member(OverlayKey(), OverlayText(req.overlay)),
               Member(SrcKey(), SrcText(req.src)), Member(StartKey(), num.write(req.startMs))]
  {
    hide Norm, Member, OverlayText, FieldTexts, OverlayJson, FormatText, Quote, Entry, Bare, SrcJson, SrcText, EndKey,
      FormatKey, MatchIdKey, OverlayKey, SrcKey, StartKey;
    KeysBare();
    SixTexts(num, Ordered(req));
    OverlaySpelled(num, req.overlay);
    SrcSpelled(num, req.src);
    EntryIsMember(EndKey(), num.write(req.endMs));
    EntryIsMember(FormatKey(), Quote(FormatText(req.format)));
    EntryIsMember(MatchIdKey(), Quote(req.matchId));
    EntryIsMember(OverlayKey(), OverlayText(req.overlay));
    EntryIsMember(SrcKey(), SrcText(req.src));
    EntryIsMember(StartKey(), num.write(req.startMs));
  }

  /** An id is the prefix and sixteen digits of the digest of that text. */
  lemma IdSpelled<N(!new)>(num: Numerals<N>, digest: Text -> Text, req: ClipRequest<N>)
    requires |digest(Preimage(num, req))| >= 16
    ensures
      var id := ClipIdFor(num, digest, req);
      |id| == 21 && id[..5] == Ascii("clip_") && id[5..] == digest(Preimage(num, req))[..16]
  {
    hide Preimage;
  }

  lemma PlainObject<N(!new)>(num: Numerals<N>, fields: seq<Field<N>>)
    ensures Plain(num, Obj(fields)) == [OPEN_OBJECT] + Join(FieldTexts(num, fields)) + [CLOSE_OBJECT]
  {
  }

  lemma SrcSpelled<N(!new)>(num: Numerals<N>, src: Option<Text>)
    ensures Plain(num, SrcJson<N>(src)) == SrcText(src)
  {
  }

  lemma SixTexts<N(!new)>(num: Numerals<N>, g: seq<Field<N>>)
    requires |g| == 6
    ensures FieldTexts(num, g) ==
              [Entry(Printed(g[0].key, Plain(num, g[0].value))), Entry(Printed(g[1].key, Plain(num, g[1].value))),
               Entry(Printed(g[2].key, Plain(num, g[2].value))), Entry(Printed(g[3].key, Plain(num, g[3].value))),
               Entry(Printed(g[4].key, Plain(num, g[4].value))), Entry(Printed(g[5].key, Plain(num, g[5].value)))]
  {
    hide FieldTexts, Plain, Entry;
    assert g == [g[0]] + ([g[1]] + ([g[2]] + ([g[3]] + ([g[4]] + [g[5]]))));
    TextOfOne(num, g[5]);
    TextsOfMore(num, g[4], [g[5]]);
    TextsOfMore(num, g[3], [g[4]] + [g[5]]);
    TextsOfMore(num, g[2], [g[3]] + ([g[4]] + [g[5]]));
    TextsOfMore(num, g[1], [g[2]] + ([g[3]] + ([g[4]] + [g[5]])));
    TextsOfMore(num, g[0], [g[1]] + ([g[2]] + ([g[3]] + ([g[4]] + [g[5]]))));
  }
}
