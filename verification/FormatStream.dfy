/** The streaming unwrapper of structured answers (internal/provider/anthropic_format.go: formatStream,
    wrapperPrefixLen, skipSpace). Fragments may be cut anywhere; what comes out is a function of the
    whole text, given in closed form below. */
module FormatStream {

  predicate IsSpace(c: char) { c == ' ' || c == '\t' || c == '\r' || c == '\n' }

  ghost predicate AllSpace(s: string) { forall i :: 0 <= i < |s| ==> IsSpace(s[i]) }

  // ----- the opener {"value":

  function SkipSpace(s: string, i: nat): (j: nat)
    requires i <= |s|
    ensures i <= j <= |s| && AllSpace(s[i..j]) && (j < |s| ==> !IsSpace(s[j]))
    decreases |s| - i
  {
    if i < |s| && IsSpace(s[i]) then
      var j := SkipSpace(s, i + 1);
      assert s[i..j] == [s[i]] + s[i + 1..j];
      j
    else i
  }

  datatype Found = NotYet | At(n: nat)

  predicate TokenAt(s: string, i: nat, tok: string) {
    i + |tok| <= |s| && s[i..i + |tok|] == tok
  }

  /** Past the token at `i` and the space after it. */
  function PastToken(s: string, i: nat, tok: string): (r: Found)
    requires i <= |s|
    ensures r.At? ==> r.n <= |s|
  {
    if TokenAt(s, i, tok) then At(SkipSpace(s, i + |tok|)) else NotYet
  }

  /** The length of a complete opener: it is complete once something follows it. */
  function WrapperPrefixLen(s: string): (r: Found)
    ensures r.At? ==> 0 < r.n < |s| && !IsSpace(s[r.n])
  {
    var i := SkipSpace(s, 0);
    var a := PastToken(s, i, "{");
    if a.NotYet? then NotYet else
    var b := PastToken(s, a.n, "\"value\"");
    if b.NotYet? then NotYet else
    var c := PastToken(s, b.n, ":");
    if c.NotYet? || c.n >= |s| then NotYet else c
  }

  lemma {:induction false} SkipSpaceExtends(s: string, t: string, i: nat)
    requires i <= |s| && SkipSpace(s, i) < |s|
    ensures SkipSpace(s + t, i) == SkipSpace(s, i)
    decreases |s| - i
  {
    if IsSpace(s[i]) {
      SkipSpaceExtends(s, t, i + 1);
    }
  }

  lemma PastTokenExtends(s: string, t: string, i: nat, tok: string)
    requires i <= |s| && PastToken(s, i, tok).At? && PastToken(s, i, tok).n < |s|
    ensures PastToken(s + t, i, tok) == PastToken(s, i, tok)
  {
    assert (s + t)[i..i + |tok|] == s[i..i + |tok|];
    SkipSpaceExtends(s, t, i + |tok|);
  }

  /** Once an opener is complete, more text does not move its end. */
  lemma OpenerIsStable(s: string, t: string)
    requires WrapperPrefixLen(s).At?
    ensures WrapperPrefixLen(s + t) == WrapperPrefixLen(s)
  {
    var i := SkipSpace(s, 0);
    SkipSpaceExtends(s, t, 0);
    PastTokenExtends(s, t, i, "{");
    var a := PastToken(s, i, "{").n;
    PastTokenExtends(s, t, a, "\"value\"");
    var b := PastToken(s, a, "\"value\"").n;
    PastTokenExtends(s, t, b, ":");
  }

  // ----- the tail that is held back

  /** Length of `s` without its trailing space. */
  function TrimmedLen(s: string): (n: nat)
    ensures n <= |s| && AllSpace(s[n..]) && (n > 0 ==> !IsSpace(s[n - 1]))
  {
    if s == "" || !IsSpace(s[|s| - 1]) then |s|
    else
      var n := TrimmedLen(s[..|s| - 1]);
      assert s[n..] == s[..|s| - 1][n..] + [s[|s| - 1]];
      n
  }

  /** Everything before the trailing space and the one brace that may be the wrapper's end. */
  function SendLen(s: string): (n: nat)
    ensures n <= |s|
  {
    var end := TrimmedLen(s);
    if end > 0 && s[end - 1] == '}' then end - 1 else end
  }

  lemma {:induction false} TrimmedLenUnique(s: string, n: nat)
    requires n <= |s| && AllSpace(s[n..]) && (n > 0 ==> !IsSpace(s[n - 1]))
    ensures TrimmedLen(s) == n
  {
    if n < |s| {
      assert s[..|s| - 1][n..] == s[n..][..|s| - 1 - n];
      assert IsSpace(s[n..][|s| - 1 - n]);
      TrimmedLenUnique(s[..|s| - 1], n);
    }
  }

  /** What may be sent of a text with a held tail depends on the held tail alone. */
  lemma SendLenOfHeld(s: string, frag: string)
    ensures var k := SendLen(s); SendLen(s + frag) == k + SendLen(s[k..] + frag)
  {
    var k := SendLen(s);
    var held := s[k..];
    var n := TrimmedLen(held + frag);
    var whole := s + frag;
    assert whole[k..] == held + frag;
    if n > 0 {
      assert whole[k + n..] == (held + frag)[n..] && whole[k + n - 1] == (held + frag)[n - 1];
      TrimmedLenUnique(whole, k + n);
    } else {
      HeldSpace(s, frag);
    }
  }

  lemma BraceIsHeld(s: string, frag: string)
    requires SendLen(s) < TrimmedLen(s)
    ensures TrimmedLen(s[SendLen(s)..] + frag) > 0
  {
    var t := s[SendLen(s)..] + frag;
    assert t[0] == '}' && t[0..] == t;
  }

  lemma HeldSpace(s: string, frag: string)
    requires TrimmedLen(s[SendLen(s)..] + frag) == 0
    ensures TrimmedLen(s + frag) == SendLen(s) == TrimmedLen(s)
    ensures SendLen(s + frag) == SendLen(s)
  {
    var k := SendLen(s);
    var held := s[k..];
    assert (held + frag)[0..] == held + frag;
    if k < TrimmedLen(s) {
      BraceIsHeld(s, frag);
    }
    assert (s + frag)[k..] == held + frag;
    TrimmedLenUnique(s + frag, k);
  }

  // ----- the closed form

  /** The part of a wrapped value that may be sent. */
  function SentOf(body: string): string { body[..SendLen(body)] }

  function HeldOf(body: string): string { body[SendLen(body)..] }

  /** All that has been handed out once `text` has been fed, in whatever pieces. */
  function Sent(wrapped: bool, text: string): string {
    if !wrapped then text
    else match WrapperPrefixLen(text)
      case NotYet => ""
      case At(n) => SentOf(text[n..])
  }

  /** All that has been handed out once the block has ended. */
  function Final(wrapped: bool, text: string): string {
    if wrapped && WrapperPrefixLen(text).NotYet? && text != "" then text
    else if Sent(wrapped, text) == "" then "{}"
    else Sent(wrapped, text)
  }

  /** A fragment only meets the held tail. */
  lemma BodyGrows(body: string, frag: string)
    ensures SentOf(body + frag) == SentOf(body) + SentOf(HeldOf(body) + frag)
    ensures HeldOf(body + frag) == HeldOf(HeldOf(body) + frag)
  {
    SendLenOfHeld(body, frag);
    assert body + frag == SentOf(body) + (HeldOf(body) + frag);
  }

  /** Output is never retracted: feeding more only appends. */
  lemma SentGrows(wrapped: bool, text: string, more: string)
    ensures Sent(wrapped, text) <= Sent(wrapped, text + more)
  {
    if wrapped && WrapperPrefixLen(text).At? {
      OpenerIsStable(text, more);
      var n := WrapperPrefixLen(text).n;
      assert (text + more)[n..] == text[n..] + more;
      BodyGrows(text[n..], more);
    }
  }

  // ----- the object

  /** What the fields of an unwrapper stand for once `text` has been fed. */
  ghost predicate Stands(prefix: bool, buf: string, text: string) {
    match WrapperPrefixLen(text)
    case NotYet => !prefix && buf == text
    case At(n) => prefix && buf == HeldOf(text[n..])
  }

  lemma StandsAfterOpener(buf: string, text: string, frag: string)
    requires Stands(true, buf, text)
    ensures Stands(true, HeldOf(buf + frag), text + frag)
    ensures Sent(true, text + frag) == Sent(true, text) + SentOf(buf + frag)
  {
    OpenerIsStable(text, frag);
    var n := WrapperPrefixLen(text).n;
    assert (text + frag)[n..] == text[n..] + frag;
    BodyGrows(text[n..], frag);
  }

  class Unwrapper {
    const wrapped: bool
    var prefix: bool
    var buf: string
    var sent: bool
    ghost var text: string   // everything fed so far
    ghost var given: string  // everything handed out so far

    ghost predicate Valid()
      reads this
    {
      && given == Sent(wrapped, text)
      && sent == (given != "")
      && if wrapped then Stands(prefix, buf, text) else prefix && buf == ""
    }

    constructor (wrapped: bool)
      ensures Valid() && this.wrapped == wrapped && text == "" && given == ""
    {
      this.wrapped := wrapped;
      prefix := !wrapped;
      buf, sent := "", false;
      text, given := "", "";
    }

    method Feed(frag: string) returns (out: string)
      requires Valid()
      modifies this
      ensures Valid() && text == old(text) + frag && given == old(given) + out
      ensures !wrapped ==> out == frag
    {
      out := FeedFragment(frag);
      text, given := text + frag, given + out;
      sent := sent || out != "";
    }

    method FeedFragment(frag: string) returns (out: string)
      requires Valid()
      modifies this`prefix, this`buf
      ensures Sent(wrapped, text + frag) == given + out && (!wrapped ==> out == frag)
      ensures if wrapped then Stands(prefix, buf, text + frag) else prefix && buf == ""
    {
      if !wrapped {
        return frag;
      }
      buf := buf + frag;
      if !prefix {
        var n := WrapperPrefixLen(buf);
        if n.NotYet? {
          return "";
        }
        buf, prefix := buf[n.n..], true;
      } else {
        StandsAfterOpener(old(buf), text, frag);
      }
      // all but the tail that the end of the block may drop goes out
      var end := SendLen(buf);
      out := buf[..end];
      buf := buf[end..];
    }

    method Flush() returns (out: string)
      requires Valid()
      modifies this`buf, this`sent, this`given
      ensures given == old(given) + out && given == Final(wrapped, text)
      ensures buf == "" && sent
    {
      out := "";
      if !prefix {
        out := buf;
      }
      buf := "";
      if out == "" && !sent {
        out := "{}";
      }
      sent := sent || out != "";
      given := given + out;
    }
  }

  /** Any way of cutting a text: the outputs of the pieces and of the end, put together. */
  function Concat(frags: seq<string>): string {
    if |frags| == 0 then "" else Concat(frags[..|frags| - 1]) + frags[|frags| - 1]
  }

  function Opener(a: string, b: string, c: string, d: string): string {
    a + "{" + b + "\"value\"" + c + ":" + d
  }

  /** A wrapper `ws { ws "value" ws : ws V ws } ws` comes out as V followed by space. */
  lemma WrapperIsRemoved(a: string, b: string, c: string, d: string, value: string, e: string, f: string)
    requires AllSpace(a) && AllSpace(b) && AllSpace(c) && AllSpace(d) && AllSpace(e) && AllSpace(f)
    requires value != "" && !IsSpace(value[0])
    ensures Final(true, Opener(a, b, c, d) + (value + e + "}" + f)) == value + e
  {
    OpenerFound(a, b, c, d, value + e + "}" + f);
    TailHeld(value + e, f);
    FinalOfWrapped(Opener(a, b, c, d), value + e + "}" + f, value + e);
  }

  lemma FinalOfWrapped(opener: string, rest: string, sent: string)
    requires WrapperPrefixLen(opener + rest) == At(|opener|)
    requires SendLen(rest) == |sent| > 0 && sent <= rest
    ensures Final(true, opener + rest) == sent
  {
    assert (opener + rest)[|opener|..] == rest;
  }

  lemma TailHeld(v: string, f: string)
    requires AllSpace(f)
    ensures SendLen(v + "}" + f) == |v|
  {
    var s := v + "}" + f;
    assert s[|v| + 1..] == f && s[|v|] == '}';
    TrimmedLenUnique(s, |v| + 1);
  }

  lemma {:induction false} SkipsExactly(s: string, i: nat, j: nat)
    requires i <= j < |s| && AllSpace(s[i..j]) && !IsSpace(s[j])
    ensures SkipSpace(s, i) == j
    decreases j - i
  {
    if i < j {
      assert s[i..j][0] == s[i];
      assert s[i + 1..j] == s[i..j][1..];
      SkipsExactly(s, i + 1, j);
    }
  }

  lemma TokenFound(pre: string, tok: string, space: string, rest: string)
    requires AllSpace(space) && rest != "" && !IsSpace(rest[0])
    ensures PastToken(pre + tok + space + rest, |pre|, tok) == At(|pre| + |tok| + |space|)
  {
    var s := pre + tok + space + rest;
    var j := |pre| + |tok| + |space|;
    assert s[|pre|..|pre| + |tok|] == tok;
    assert s[|pre| + |tok|..j] == space && s[j] == rest[0];
    SkipsExactly(s, |pre| + |tok|, j);
  }

  lemma OpenerFound(a: string, b: string, c: string, d: string, rest: string)
    requires AllSpace(a) && AllSpace(b) && AllSpace(c) && AllSpace(d) && rest != "" && !IsSpace(rest[0])
    ensures WrapperPrefixLen(Opener(a, b, c, d) + rest) == At(|Opener(a, b, c, d)|)
  {
    var s := Opener(a, b, c, d) + rest;
    var r2 := ":" + d + rest;
    var r1 := "\"value\"" + c + r2;
    var p1 := a + "{" + b;
    var p2 := p1 + "\"value\"" + c;
    assert s == p2 + ":" + d + rest;
    assert s == p1 + "\"value\"" + c + r2;
    assert s == a + "{" + b + r1;
    assert s[0..|a|] == a && s[|a|] == '{';
    SkipsExactly(s, 0, |a|);
    TokenFound(a, "{", b, r1);
    TokenFound(p1, "\"value\"", c, r2);
    TokenFound(p2, ":", d, rest);
  }

  // ----- what a wrapper is

  /** White space in the gaps of an opener, and a value begun after it. */
  ghost predicate IsOpened(a: string, b: string, c: string, d: string, rest: string) {
    AllSpace(a) && AllSpace(b) && AllSpace(c) && AllSpace(d) && rest != "" && !IsSpace(rest[0])
  }

  ghost predicate IsWrapper(text: string) {
    exists a, b, c, d, rest :: text == Opener(a, b, c, d) + rest && IsOpened(a, b, c, d, rest)
  }

  /** `out` is `rest` without the white space at its end and the one brace before it. */
  ghost predicate Stripped(rest: string, out: string) {
    out <= rest &&
    var tail := rest[|out|..];
    || (AllSpace(tail) && (out != "" ==> !IsSpace(out[|out| - 1]) && out[|out| - 1] != '}'))
    || (tail != "" && tail[0] == '}' && AllSpace(tail[1..]))
  }

  lemma PutTogether(s: string, a: string, b: string, c: string, d: string, rest: string, s1: string, s2: string, s3: string)
    requires s == a + s1 && s1 == "{" + b + s2 && s2 == "\"value\"" + c + s3 && s3 == ":" + d + rest
    ensures s == Opener(a, b, c, d) + rest
  {
  }

  lemma IsOne(s: string, a: string, b: string, c: string, d: string, rest: string)
    requires s == Opener(a, b, c, d) + rest && IsOpened(a, b, c, d, rest)
    ensures IsWrapper(s)
  {
  }

  lemma Part(s: string, i: nat, tok: string, n: nat)
    requires i <= |s| && PastToken(s, i, tok) == At(n)
    ensures i + |tok| <= n <= |s| && s[i..] == tok + s[i + |tok|..n] + s[n..] && AllSpace(s[i + |tok|..n])
  {
    assert s[i..] == s[i..i + |tok|] + s[i + |tok|..];
  }

  /** The pieces three tokens in a row cut a text into. */
  lemma ThreeParts(s: string, i: nat, x: nat, y: nat, z: nat, t: string, u: string, v: string)
    requires i <= |s| && x <= |s| && y <= |s|
    requires PastToken(s, i, t) == At(x) && PastToken(s, x, u) == At(y) && PastToken(s, y, v) == At(z)
    ensures i + |t| <= x && x + |u| <= y && y + |v| <= z <= |s|
    ensures AllSpace(s[i + |t|..x]) && AllSpace(s[x + |u|..y]) && AllSpace(s[y + |v|..z])
    ensures s[i..] == t + s[i + |t|..x] + s[x..] && s[x..] == u + s[x + |u|..y] + s[y..] && s[y..] == v + s[y + |v|..z] + s[z..]
  {
    Part(s, i, t, x);
    Part(s, x, u, y);
    Part(s, y, v, z);
  }

  lemma Places(s: string, t: string, u: string, v: string) returns (i: nat, x: nat, y: nat, z: nat)
    requires WrapperPrefixLen(s).At? && t == "{" && u == "\"value\"" && v == ":"
    ensures i <= |s| && x <= |s| && y <= |s| && z < |s| && !IsSpace(s[z]) && AllSpace(s[0..i])
    ensures PastToken(s, i, t) == At(x) && PastToken(s, x, u) == At(y) && PastToken(s, y, v) == At(z)
  {
    i := SkipSpace(s, 0);
    x := PastToken(s, i, t).n;
    y := PastToken(s, x, u).n;
    z := PastToken(s, y, v).n;
  }

  /** A complete opener that has been found is one. */
  lemma FoundIsWrapper(s: string, t: string, u: string, v: string)
    requires WrapperPrefixLen(s).At? && t == "{" && u == "\"value\"" && v == ":"
    ensures IsWrapper(s)
  {
    var i, x, y, z := Places(s, t, u, v);
    ThreeParts(s, i, x, y, z, t, u, v);
    Opened(s, i, x, y, z, t, u, v);
  }

  lemma Opened(s: string, i: nat, x: nat, y: nat, z: nat, t: string, u: string, v: string)
    requires t == "{" && u == "\"value\"" && v == ":" && i <= |s|
    requires i + |t| <= x && x + |u| <= y && y + |v| <= z < |s| && !IsSpace(s[z])
    requires AllSpace(s[0..i]) && AllSpace(s[i + |t|..x]) && AllSpace(s[x + |u|..y]) && AllSpace(s[y + |v|..z])
    requires s[i..] == t + s[i + |t|..x] + s[x..] && s[x..] == u + s[x + |u|..y] + s[y..] && s[y..] == v + s[y + |v|..z] + s[z..]
    ensures IsWrapper(s)
  {
    assert s == s[0..i] + s[i..];
    PutTogether(s, s[0..i], s[i + |t|..x], s[x + |u|..y], s[y + |v|..z], s[z..], s[i..], s[x..], s[y..]);
    assert s[z..][0] == s[z];
    IsOne(s, s[0..i], s[i + |t|..x], s[x + |u|..y], s[y + |v|..z], s[z..]);
  }

  lemma WrapperIsFound(s: string)
    ensures WrapperPrefixLen(s).At? <==> IsWrapper(s)
  {
    if IsWrapper(s) {
      var a, b, c, d, rest :| s == Opener(a, b, c, d) + rest && IsOpened(a, b, c, d, rest);
      OpenerFound(a, b, c, d, rest);
    }
    if WrapperPrefixLen(s).At? {
      FoundIsWrapper(s, "{", "\"value\"", ":");
    }
  }

  lemma SentIsStripped(rest: string)
    ensures Stripped(rest, SentOf(rest))
  {
    var n := TrimmedLen(rest);
    var k := SendLen(rest);
    assert rest[k..] == rest[k..n] + rest[n..];
    if k < n {
      assert rest[k..][1..] == rest[n..];
    }
  }

  lemma {:induction false} ConcatEmpty(outs: seq<string>)
    requires Concat(outs) == ""
    ensures forall i :: 0 <= i < |outs| ==> outs[i] == ""
  {
    if |outs| > 0 {
      var n := |outs| - 1;
      assert |Concat(outs)| == |Concat(outs[..n])| + |outs[n]|;
      ConcatEmpty(outs[..n]);
      forall i | 0 <= i < |outs| ensures outs[i] == "" {
        assert i < n ==> outs[..n][i] == outs[i];
      }
    }
  }

  lemma WhatComesOut(wrapped: bool, text: string, outs: seq<string>, last: string)
    requires Concat(outs) == Sent(wrapped, text) && Concat(outs) + last == Final(wrapped, text)
    ensures !wrapped ==> last == if text == "" then "{}" else ""
    ensures wrapped && !IsWrapper(text) ==>
      (forall i :: 0 <= i < |outs| ==> outs[i] == "") && last == (if text == "" then "{}" else text)
    ensures wrapped ==> forall a, b, c, d, rest :: text == Opener(a, b, c, d) + rest && IsOpened(a, b, c, d, rest) ==>
      Stripped(rest, Concat(outs)) && last == if Concat(outs) == "" then "{}" else ""
  {
    assert last == Final(wrapped, text)[|Concat(outs)|..];
    WrapperIsFound(text);
    if wrapped && !IsWrapper(text) {
      ConcatEmpty(outs);
    }
    if wrapped {
      forall a, b, c, d, rest | text == Opener(a, b, c, d) + rest && IsOpened(a, b, c, d, rest)
        ensures Stripped(rest, Concat(outs)) && last == if Concat(outs) == "" then "{}" else ""
      {
        OpenerFound(a, b, c, d, rest);
        assert text[|Opener(a, b, c, d)|..] == rest;
        SentIsStripped(rest);
      }
    }
  }

  method RunAll(wrapped: bool, frags: seq<string>) returns (outs: seq<string>, last: string)
    ensures |outs| == |frags|
    ensures Concat(outs) == Sent(wrapped, Concat(frags))
    ensures Concat(outs) + last == Final(wrapped, Concat(frags))
    // an answer that needs no unwrapping goes out as it came, fragment by fragment
    ensures !wrapped ==> outs == frags && last == if Concat(frags) == "" then "{}" else ""
    // a text that is no wrapper is held to the end and then sent as it is
    ensures wrapped && !IsWrapper(Concat(frags)) ==>
      (forall i :: 0 <= i < |outs| ==> outs[i] == "") && last == (if Concat(frags) == "" then "{}" else Concat(frags))
    // of a wrapper goes out what stands between its opener and its end
    ensures wrapped ==> forall a, b, c, d, rest :: Concat(frags) == Opener(a, b, c, d) + rest && IsOpened(a, b, c, d, rest) ==>
      Stripped(rest, Concat(outs)) && last == if Concat(outs) == "" then "{}" else ""
  {
    var u := new Unwrapper(wrapped);
    outs := [];
    for i := 0 to |frags|
      invariant u.Valid() && u.wrapped == wrapped && fresh(u) && |outs| == i
      invariant u.text == Concat(frags[..i]) && u.given == Concat(outs)
      invariant !wrapped ==> outs == frags[..i]
    {
      assert frags[..i + 1][..i] == frags[..i];
      var out := u.Feed(frags[i]);
      assert (outs + [out])[..i] == outs;
      outs := outs + [out];
    }
    assert frags[..|frags|] == frags;
    last := u.Flush();
    WhatComesOut(wrapped, Concat(frags), outs, last);
  }
}
