/** The two pure helpers of python/tools/renderer.py: the FFmpeg `drawtext`
    escaping of `escape_drawtext`, proved to be a per-character map, and the
    keep/trash filter of `load_clips`, proved to be an order-preserving
    filter. */
module Renderer {

  /** `str.replace` with a one-character pattern: every occurrence of `pat`
      becomes `rep`. */
  function Replace(s: string, pat: char, rep: string): (r: string)
    ensures pat !in s ==> r == s
  {
    if s == [] then []
    else (if s[0] == pat then rep else [s[0]]) + Replace(s[1..], pat, rep)
  }

  lemma {:induction false} ReplaceAppend(a: string, b: string, pat: char, rep: string)
    ensures Replace(a + b, pat, rep) == Replace(a, pat, rep) + Replace(b, pat, rep)
    decreases |a|
  {
    if a == [] {
      assert a + b == b;
    } else {
      assert (a + b)[0] == a[0];
      assert (a + b)[1..] == a[1..] + b;
      ReplaceAppend(a[1..], b, pat, rep);
    }
  }

  /** The replacement pairs `escape_drawtext` applies in order after the
      three control-character replaces. */
  const DRAWTEXT_PAIRS: seq<(char, string)> :=
    [('\\', "\\\\"), ('\'', "\\'"), (':', "\\:"), ('%', "\\%"), ('"', "\\\"")]

  /** The replaces of `pairs`, applied one after another. */
  function ReplaceEach(s: string, pairs: seq<(char, string)>): string
  {
    if pairs == [] then s
    else
      var last := pairs[|pairs| - 1];
      Replace(ReplaceEach(s, pairs[..|pairs| - 1]), last.0, last.1)
  }

  lemma {:induction false} ReplaceEachAppend(a: string, b: string, pairs: seq<(char, string)>)
    ensures ReplaceEach(a + b, pairs) == ReplaceEach(a, pairs) + ReplaceEach(b, pairs)
    decreases |pairs|
  {
    if pairs != [] {
      var last := pairs[|pairs| - 1];
      ReplaceEachAppend(a, b, pairs[..|pairs| - 1]);
      ReplaceAppend(ReplaceEach(a, pairs[..|pairs| - 1]), ReplaceEach(b, pairs[..|pairs| - 1]), last.0, last.1);
    }
  }

  /** The whole replace chain of `escape_drawtext`, as one function. */
  function EscapeChain(s: string): string
  {
    ReplaceEach(Replace(Replace(Replace(s, '\n', " "), '\r', ""), '\0', ""), DRAWTEXT_PAIRS)
  }

  /** The characters that drawtext needs escaped with a backslash. */
  const QUOTED: set<char> := {'\\', '\'', ':', '%', '"'}

  /** The characters that are dropped. */
  const DROPPED: set<char> := {'\r', '\0'}

  /** The per-character meaning of the escape. */
  function EscapeChar(c: char): (r: string)
    ensures c in QUOTED ==> r == ['\\', c]
    ensures c in DROPPED ==> r == []
    ensures c == '\n' ==> r == " "
    ensures c !in QUOTED && c !in DROPPED && c != '\n' ==> r == [c]
  {
    if c == '\n' then " "
    else if c == '\r' || c == '\0' then ""
    else if c in QUOTED then ['\\', c]
    else [c]
  }

  /** The escape of a string: each character escaped on its own. */
  function Escaped(s: string): string
  {
    if s == [] then [] else EscapeChar(s[0]) + Escaped(s[1..])
  }

  lemma {:induction false} EscapedAppend(a: string, b: string)
    ensures Escaped(a + b) == Escaped(a) + Escaped(b)
    decreases |a|
  {
    if a == [] {
      assert a + b == b;
    } else {
      assert (a + b)[0] == a[0];
      assert (a + b)[1..] == a[1..] + b;
      EscapedAppend(a[1..], b);
    }
  }

  lemma ReplaceOneChar(c: char, pat: char, rep: string)
    ensures Replace([c], pat, rep) == if c == pat then rep else [c]
  {
  }

  /** The five replaces of `DRAWTEXT_PAIRS`, written out. */
  function PairChain(t: string): string
  {
    Replace(Replace(Replace(Replace(Replace(t, '\\', "\\\\"), '\'', "\\'"), ':', "\\:"), '%', "\\%"), '"', "\\\"")
  }

  lemma PairsUnrolled(t: string)
    ensures ReplaceEach(t, DRAWTEXT_PAIRS) == PairChain(t)
  {
    var p := DRAWTEXT_PAIRS;
    assert ReplaceEach(t, p[..0]) == t;
    assert p[..1][..0] == p[..0] && p[..1][0] == p[0];
    assert ReplaceEach(t, p[..1]) == Replace(t, p[0].0, p[0].1);
    assert p[..2][..1] == p[..1] && p[..2][1] == p[1];
    assert ReplaceEach(t, p[..2]) == Replace(ReplaceEach(t, p[..1]), p[1].0, p[1].1);
    assert p[..3][..2] == p[..2] && p[..3][2] == p[2];
    assert ReplaceEach(t, p[..3]) == Replace(ReplaceEach(t, p[..2]), p[2].0, p[2].1);
    assert p[..4][..3] == p[..3] && p[..4][3] == p[3];
    assert ReplaceEach(t, p[..4]) == Replace(ReplaceEach(t, p[..3]), p[3].0, p[3].1);
    assert p[..5][..4] == p[..4] && p[..5] == p;
  }

  /** The three control-character replaces on one character. */
  lemma ControlStageOnChar(c: char)
    ensures Replace(Replace(Replace([c], '\n', " "), '\r', ""), '\0', "") ==
      if c == '\n' then " " else if c in DROPPED then [] else [c]
  {
  }

  /** The pair replaces on one character: a quoted character gets its
      backslash, and the backslashes added are not escaped again. */
  lemma PairStageOnChar(c: char)
    ensures PairChain([c]) == if c in QUOTED then ['\\', c] else [c]
  {
  }

  /** On one character the replace chain is the per-character escape. */
  lemma EscapeChainOnChar(c: char)
    ensures EscapeChain([c]) == EscapeChar(c)
  {
    var t := Replace(Replace(Replace([c], '\n', " "), '\r', ""), '\0', "");
    ControlStageOnChar(c);
    PairsUnrolled(t);
    if c == '\n' {
      PairStageOnChar(' ');
    } else if c !in DROPPED {
      PairStageOnChar(c);
    } else {
      assert t == [];
    }
  }

  /** The sequence of replaces in `escape_drawtext` equals the
      per-character escape. */
  lemma {:induction false} EscapeChainIsPerChar(s: string)
    ensures EscapeChain(s) == Escaped(s)
    decreases |s|
  {
    if s == [] {
      PairsUnrolled(s);
    } else {
      var c := s[0];
      assert s == [c] + s[1..];
      var t1 := Replace(Replace(Replace(s, '\n', " "), '\r', ""), '\0', "");
      var h := Replace(Replace(Replace([c], '\n', " "), '\r', ""), '\0', "");
      var u := Replace(Replace(Replace(s[1..], '\n', " "), '\r', ""), '\0', "");
      ReplaceAppend([c], s[1..], '\n', " ");
      ReplaceAppend(Replace([c], '\n', " "), Replace(s[1..], '\n', " "), '\r', "");
      ReplaceAppend(Replace(Replace([c], '\n', " "), '\r', ""), Replace(Replace(s[1..], '\n', " "), '\r', ""), '\0', "");
      assert t1 == h + u;
      ReplaceEachAppend(h, u, DRAWTEXT_PAIRS);
      assert EscapeChain(s) == EscapeChain([c]) + EscapeChain(s[1..]);
      EscapeChainOnChar(c);
      EscapeChainIsPerChar(s[1..]);
    }
  }

  /** `escape_drawtext`. */
  method EscapeDrawtext(s: string) returns (r: string)
    ensures r == Escaped(s)
  {
    r := Replace(Replace(Replace(s, '\n', " "), '\r', ""), '\0', "");
    ghost var start := r;
    var pairs := DRAWTEXT_PAIRS;
    for i := 0 to |pairs|
      invariant r == ReplaceEach(start, pairs[..i])
    {
      assert pairs[..i + 1][..i] == pairs[..i];
      r := Replace(r, pairs[i].0, pairs[i].1);
    }
    assert pairs[..|pairs|] == pairs;
    EscapeChainIsPerChar(s);
  }

  /** No newline, carriage return or NUL survives the escape. */
  lemma {:induction false} EscapedHasNoControl(s: string)
    ensures forall i :: 0 <= i < |Escaped(s)| ==> Escaped(s)[i] !in {'\n', '\r', '\0'}
    decreases |s|
  {
    if s != [] {
      EscapedHasNoControl(s[1..]);
      var e := EscapeChar(s[0]);
      forall i | 0 <= i < |Escaped(s)|
        ensures Escaped(s)[i] !in {'\n', '\r', '\0'}
      {
        if i >= |e| {
          assert Escaped(s)[i] == Escaped(s[1..])[i - |e|];
        }
      }
    }
  }

  /** A string with none of the eight special characters is its own escape. */
  lemma {:induction false} EscapedPlainIsIdentity(s: string)
    requires forall i :: 0 <= i < |s| ==> s[i] !in QUOTED && s[i] !in DROPPED && s[i] != '\n'
    ensures Escaped(s) == s
    decreases |s|
  {
    if s != [] {
      EscapedPlainIsIdentity(s[1..]);
    }
  }

  /** How many characters of `s` are in `cs`. */
  function CountIn(s: string, cs: set<char>): (n: nat)
    ensures n <= |s|
  {
    if s == [] then 0 else (if s[0] in cs then 1 else 0) + CountIn(s[1..], cs)
  }

  /** Every quoted character adds one backslash, every dropped one goes. */
  lemma {:induction false} EscapedLength(s: string)
    ensures |Escaped(s)| == |s| + CountIn(s, QUOTED) - CountIn(s, DROPPED)
    decreases |s|
  {
    if s != [] {
      EscapedLength(s[1..]);
    }
  }

  /** Every quote, colon, percent sign and double quote in the output comes
      right after a backslash. */
  lemma {:induction false} EscapedQuotesArePreceded(s: string)
    ensures forall i :: 0 <= i < |Escaped(s)| && Escaped(s)[i] in {'\'', ':', '%', '"'} ==>
      i > 0 && Escaped(s)[i - 1] == '\\'
    decreases |s|
  {
    if s != [] {
      EscapedQuotesArePreceded(s[1..]);
      var e := EscapeChar(s[0]);
      var rest := Escaped(s[1..]);
      assert Escaped(s) == e + rest;
      forall i | 0 <= i < |Escaped(s)| && Escaped(s)[i] in {'\'', ':', '%', '"'}
        ensures i > 0 && Escaped(s)[i - 1] == '\\'
      {
        if i >= |e| {
          assert Escaped(s)[i] == rest[i - |e|];
          assert i - |e| > 0;
          assert Escaped(s)[i - 1] == rest[i - 1 - |e|];
        }
      }
    }
  }

  /** The JSON values a clip entry holds. */
  datatype Json =
    | JNull
    | JBool(b: bool)
    | JNumber(n: real)
    | JString(s: string)
    | JArray(items: seq<Json>)
    | JObject(fields: map<string, Json>)

  /** A clip entry of the review file. */
  type ClipEntry = map<string, Json>

  /** The condition of the `load_clips` comprehension: `keep` (default true)
      is not the value false, and `status` (default null) is not "trash". */
  predicate Kept(c: ClipEntry)
  {
    && ("keep" in c ==> c["keep"] != JBool(false))
    && ("status" in c ==> c["status"] != JString("trash"))
  }

  /** The clips `load_clips` keeps, in their original order. */
  function KeptClips(clips: seq<ClipEntry>): (r: seq<ClipEntry>)
    ensures |r| <= |clips|
  {
    if clips == [] then []
    else KeptClips(clips[..|clips| - 1]) + (if Kept(clips[|clips| - 1]) then [clips[|clips| - 1]] else [])
  }

  /** Exactly the kept clips survive, each as often as it occurs. */
  lemma {:induction false} KeptClipsExactly(clips: seq<ClipEntry>)
    ensures forall c :: multiset(KeptClips(clips))[c] == if Kept(c) then multiset(clips)[c] else 0
    decreases |clips|
  {
    if clips != [] {
      var init := clips[..|clips| - 1];
      KeptClipsExactly(init);
      assert clips == init + [clips[|clips| - 1]];
    }
  }

  /** The filter commutes with concatenation, so it keeps the relative order
      of the clips. */
  lemma {:induction false} KeptClipsAppend(a: seq<ClipEntry>, b: seq<ClipEntry>)
    ensures KeptClips(a + b) == KeptClips(a) + KeptClips(b)
    decreases |b|
  {
    if b == [] {
      assert a + b == a;
    } else {
      var ab := a + b;
      var last := b[|b| - 1];
      assert ab[..|ab| - 1] == a + b[..|b| - 1];
      assert ab[|ab| - 1] == last;
      KeptClipsAppend(a, b[..|b| - 1]);
      assert KeptClips(b) == KeptClips(b[..|b| - 1]) + (if Kept(last) then [last] else []);
      calc {
        KeptClips(ab);
        KeptClips(a + b[..|b| - 1]) + (if Kept(last) then [last] else []);
        KeptClips(a) + KeptClips(b[..|b| - 1]) + (if Kept(last) then [last] else []);
      }
    }
  }

  /** An entry whose `keep` is any value other than false (a missing key,
      true, null, 0) and whose status is not "trash" is kept. */
  lemma KeepIsIdentityNotTruthiness(c: ClipEntry, v: Json)
    requires v != JBool(false) && "status" !in c
    ensures Kept(c["keep" := v]) && Kept(c - {"keep"})
    ensures !Kept(c["keep" := JBool(false)])
  {
  }
}
