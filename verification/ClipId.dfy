/** Content-addressed clip ids: the canonical text of a request, hashed. */
module ClipId {
  import opened Options
  import opened CanonicalJson
  import Sorting

  datatype ClipFormat = Portrait | Square | Landscape

  /** What is drawn over the clip; every part may be missing. */
  datatype ClipOverlay = ClipOverlay(
    scoreline: Option<Text>, scorer: Option<Text>, minute: Option<Text>, language: Option<Text>)

  datatype ClipRequest<N> = ClipRequest(
    matchId: Text, startMs: N, endMs: N, format: ClipFormat, overlay: Option<ClipOverlay>, src: Option<Text>)

  function Ascii(s: string): (t: Text)
    requires forall i :: 0 <= i < |s| ==> s[i] < 128 as char
    ensures |t| == |s| && forall i :: 0 <= i < |s| ==> t[i] == s[i] as int
  {
    seq<CodeUnit>(|s|, i requires 0 <= i < |s| => s[i] as int)
  }

  function MatchIdKey(): Text { Ascii("match_id") }
  function StartKey(): Text { Ascii("start_ms") }
  function EndKey(): Text { Ascii("end_ms") }
  function FormatKey(): Text { Ascii("format") }
  function OverlayKey(): Text { Ascii("overlay") }
  function SrcKey(): Text { Ascii("src") }
  function ScorelineKey(): Text { Ascii("scoreline") }
  function ScorerKey(): Text { Ascii("scorer") }
  function MinuteKey(): Text { Ascii("minute") }
  function LanguageKey(): Text { Ascii("language") }

  lemma KeysDiffer()
    ensures |MatchIdKey()| == 8 && |StartKey()| == 8 && |EndKey()| == 6 && |FormatKey()| == 6
    ensures |OverlayKey()| == 7 && |SrcKey()| == 3
    ensures MatchIdKey() != StartKey() && EndKey() != FormatKey()
    ensures |ScorelineKey()| == 9 && |ScorerKey()| == 6 && |MinuteKey()| == 6 && |LanguageKey()| == 8
    ensures ScorerKey() != MinuteKey()
  {
    assert MatchIdKey()[0] != StartKey()[0];
    assert EndKey()[0] != FormatKey()[0];
    assert ScorerKey()[0] != MinuteKey()[0];
  }

  function FormatText(f: ClipFormat): Text {
    match f
    case Portrait => Ascii("9:16")
    case Square => Ascii("1:1")
    case Landscape => Ascii("16:9")
  }

  lemma FormatsDiffer(f: ClipFormat, g: ClipFormat)
    ensures FormatText(f) == FormatText(g) <==> f == g
  {
    assert Ascii("9:16")[0] != Ascii("16:9")[0];
  }

  /** A field that is there only when its value is. */
  function Given<N>(key: Text, value: Option<Text>): seq<Field<N>> {
    match value
    case None => []
    case Some(s) => [Field(key, Str(s))]
  }

  function OverlayFields<N>(o: ClipOverlay): seq<Field<N>> {
    Given(ScorelineKey(), o.scoreline) + Given(ScorerKey(), o.scorer)
    + Given(MinuteKey(), o.minute) + Given(LanguageKey(), o.language)
  }

  function OverlayJson<N>(o: Option<ClipOverlay>): Json<N> {
    match o
    case None => Null
    case Some(overlay) => Obj(OverlayFields(overlay))
  }

  function SrcJson<N>(src: Option<Text>): Json<N> {
    match src
    case None => Null
    case Some(s) => Str(s)
  }

  /** The object whose canonical text is hashed; a missing overlay or source is
      null. */
  function RequestFields<N>(req: ClipRequest<N>): seq<Field<N>> {
    [Field(MatchIdKey(), Str(req.matchId)),
     Field(StartKey(), Num(req.startMs)),
     Field(EndKey(), Num(req.endMs)),
     Field(FormatKey(), Str(FormatText(req.format))),
     Field(OverlayKey(), OverlayJson(req.overlay)),
     Field(SrcKey(), SrcJson(req.src))]
  }

  function RequestJson<N>(req: ClipRequest<N>): Json<N> {
    Obj(RequestFields(req))
  }

  function Preimage<N(!new)>(num: Numerals<N>, req: ClipRequest<N>): Text {
    Canonicalize(num, RequestJson(req))
  }

  /** `clip_` and the first 16 hexadecimal digits of the digest. */
  function ClipIdFor<N(!new)>(num: Numerals<N>, digest: Text -> Text, req: ClipRequest<N>): Text
    requires |digest(Preimage(num, req))| >= 16
  {
    Ascii("clip_") + digest(Preimage(num, req))[..16]
  }

  // ---------- different requests, different texts ----------

  lemma OverlayProper<N>(o: ClipOverlay)
    ensures DistinctKeys(OverlayFields<N>(o))
    ensures forall i :: 0 <= i < |OverlayFields<N>(o)| ==> OverlayFields<N>(o)[i].value.Str?
  {
    KeysDiffer();
  }

  lemma RequestProper<N>(req: ClipRequest<N>)
    ensures ProperObjects(RequestJson(req))
  {
    KeysDiffer();
    if req.overlay.Some? {
      OverlayProper<N>(req.overlay.value);
    }
    var fields := RequestFields(req);
    forall i | 0 <= i < |fields|
      ensures ProperObjects(fields[i].value)
    {
    }
  }

  /** An overlay can be read off the fields it is printed from. */
  lemma OverlayReadable<N>(o: ClipOverlay, s: Text)
    ensures Field(ScorelineKey(), Str(s)) in OverlayFields<N>(o) <==> o.scoreline == Some(s)
    ensures Field(ScorerKey(), Str(s)) in OverlayFields<N>(o) <==> o.scorer == Some(s)
    ensures Field(MinuteKey(), Str(s)) in OverlayFields<N>(o) <==> o.minute == Some(s)
    ensures Field(LanguageKey(), Str(s)) in OverlayFields<N>(o) <==> o.language == Some(s)
  {
    KeysDiffer();
  }

  lemma SameOptions(a: Option<Text>, b: Option<Text>)
    requires forall s :: a == Some(s) <==> b == Some(s)
    ensures a == b
  {
    if a.Some? {
      assert a == Some(a.value);
    }
    if b.Some? {
      assert b == Some(b.value);
    }
  }

  lemma SameFields<N(!new)>(o: ClipOverlay, p: ClipOverlay)
    requires SameUpToKeyOrder(OverlayJson<N>(Some(o)), OverlayJson<N>(Some(p)))
    ensures forall x :: x in OverlayFields<N>(o) <==> x in OverlayFields<N>(p)
  {
    hide OverlayFields;
    var f, g := OverlayFields<N>(o), OverlayFields<N>(p);
    OverlayProper<N>(o);
    OverlayProper<N>(p);
    forall i | 0 <= i < |f|
      ensures f[i] in g
    {
      assert HasField(g, f[i]);
    }
    Sorting.SameMembers(f, g);
    forall x
      ensures x in f <==> x in g
    {
      assert x in multiset(f) <==> x in multiset(g);
    }
  }

  lemma SameOverlay<N(!new)>(o: ClipOverlay, p: ClipOverlay)
    requires SameUpToKeyOrder(OverlayJson<N>(Some(o)), OverlayJson<N>(Some(p)))
    ensures o == p
  {
    hide SameUpToKeyOrder, OverlayFields;
    SameFields<N>(o, p);
    forall s
      ensures o.scoreline == Some(s) <==> p.scoreline == Some(s)
      ensures o.scorer == Some(s) <==> p.scorer == Some(s)
      ensures o.minute == Some(s) <==> p.minute == Some(s)
      ensures o.language == Some(s) <==> p.language == Some(s)
    {
      OverlayReadable<N>(o, s);
      OverlayReadable<N>(p, s);
    }
    SameOptions(o.scoreline, p.scoreline);
    SameOptions(o.scorer, p.scorer);
    SameOptions(o.minute, p.minute);
    SameOptions(o.language, p.language);
  }

  /** Two requests hash the same text exactly when they are the same request. */
  lemma PreimagesDiffer<N(!new)>(num: Numerals<N>, a: ClipRequest<N>, b: ClipRequest<N>)
    requires num.Lawful()
    ensures Preimage(num, a) == Preimage(num, b) <==> a == b
  {
    hide Canonicalize;
    if Preimage(num, a) == Preimage(num, b) {
      RequestProper(a);
      RequestProper(b);
      SameTextSameTree(num, RequestJson(a), RequestJson(b));
      KeysDiffer();
      var f, g := RequestFields(a), RequestFields(b);
      forall i | 0 <= i < 6
        ensures SameUpToKeyOrder(f[i].value, g[i].value)
      {
        assert HasField(g, f[i]);
      }
      assert SameUpToKeyOrder(f[0].value, g[0].value) && SameUpToKeyOrder(f[1].value, g[1].value);
      assert SameUpToKeyOrder(f[2].value, g[2].value) && SameUpToKeyOrder(f[3].value, g[3].value);
      assert SameUpToKeyOrder(f[4].value, g[4].value) && SameUpToKeyOrder(f[5].value, g[5].value);
      FormatsDiffer(a.format, b.format);
      if a.overlay.Some? && b.overlay.Some? {
        SameOverlay<N>(a.overlay.value, b.overlay.value);
      }
    }
  }

  /** Two different requests share an id only where the truncated digests of
      two different texts collide. */
  lemma IdsCollideOnlyByHash<N(!new)>(num: Numerals<N>, digest: Text -> Text, a: ClipRequest<N>, b: ClipRequest<N>)
    requires num.Lawful()
    requires forall t :: |digest(t)| >= 16
    ensures ClipIdFor(num, digest, a) == ClipIdFor(num, digest, b)
       <==> a == b || (Preimage(num, a) != Preimage(num, b)
                       && digest(Preimage(num, a))[..16] == digest(Preimage(num, b))[..16])
  {
    hide Preimage;
    PreimagesDiffer(num, a, b);
    assert ClipIdFor(num, digest, a)[5..] == digest(Preimage(num, a))[..16];
    assert ClipIdFor(num, digest, b)[5..] == digest(Preimage(num, b))[..16];
  }

  // ---------- whole numbers ----------

  function Digits(n: nat): (t: Text)
    ensures t != [] && forall i :: 0 <= i < |t| ==> 0x30 <= t[i] <= 0x39
  {
    if n < 10 then [0x30 + n] else Digits(n / 10) + [0x30 + n % 10]
  }

  function ReadDigits(t: Text): Option<nat> {
    if t == [] then Some(0)
    else
      var u := t[|t| - 1];
      match ReadDigits(t[..|t| - 1])
      case Some(n) => if 0x30 <= u <= 0x39 then Some(10 * n + (u - 0x30)) else None
      case None => None
  }

  lemma {:induction false} DigitsComeBack(n: nat)
    ensures ReadDigits(Digits(n)) == Some(n)
  {
    if n < 10 {
      assert Digits(n)[..0] == [];
    } else {
      DigitsComeBack(n / 10);
      assert Digits(n)[..|Digits(n)| - 1] == Digits(n / 10);
    }
  }

  function WriteInt(n: int): Text {
    if n < 0 then [0x2D] + Digits(-n) else Digits(n)
  }

  function ReadInt(t: Text): Option<int> {
    if t != [] && t[0] == 0x2D then
      match ReadDigits(t[1..])
      case Some(n) =>
        var k: int := n;
        Some(-k)
      case None => None
    else
      match ReadDigits(t)
      case Some(n) => Some(n)
      case None => None
  }

  lemma IntComesBack(n: int)
    ensures Written(WriteInt(n)) && ReadInt(WriteInt(n)) == Some(n)
  {
    hide ReadDigits, Digits;
    if n < 0 {
      DigitsComeBack(-n);
      assert WriteInt(n)[1..] == Digits(-n);
    } else {
      DigitsComeBack(n);
    }
  }

  /** Whole milliseconds printed in decimal meet what is asked of numerals. */
  lemma WholeNumbersLawful()
    ensures Numerals(WriteInt, ReadInt).Lawful()
  {
    hide Written, WriteInt, ReadInt;
    forall n: int
      ensures Written(WriteInt(n)) && ReadInt(WriteInt(n)) == Some(n)
    {
      IntComesBack(n);
    }
  }
}
