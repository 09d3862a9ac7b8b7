/** JSON values as encoding/json hands them out, and JSON Pointers as the schema sanitiser builds them
    (internal/provider/gemini_schema.go: geminiPointerEscape and the paths handed to node): "#", then
    "/" and an escaped token per step, escaped as section 3 of RFC 6901 says. */
module JsonDoc {
  import opened Basics

  /** A number literal: its text, the whole number strconv.ParseInt reads in it, whether a double holds it,
      and whether it is spelt with a point or an exponent. */
  datatype Literal = Literal(text: string, whole: Option<int>, finite: bool, fractional: bool)

  /** A string carries the number literal its text spells, if any: json.Number accepts a quoted one. */
  datatype Json =
    | JNull
    | JBool(b: bool)
    | JNum(lit: Literal)
    | JStr(s: string, quoted: Option<Literal>)
    | JArr(items: seq<Json>)
    | JObj(members: map<string, Json>)

  // ---- Escaping ----

  function EscapeChar(c: char): string {
    if c == '~' then "~0" else if c == '/' then "~1" else [c]
  }

  function Escape(token: string): (r: string)
    ensures '/' !in r
  {
    if token == "" then "" else EscapeChar(token[0]) + Escape(token[1..])
  }

  function Unescape(s: string): string {
    if s == "" then ""
    else if s[0] == '~' && |s| > 1 && s[1] == '0' then "~" + Unescape(s[2..])
    else if s[0] == '~' && |s| > 1 && s[1] == '1' then "/" + Unescape(s[2..])
    else [s[0]] + Unescape(s[1..])
  }

  /** Escaping loses nothing. */
  lemma {:induction false} UnescapeEscape(token: string)
    ensures Unescape(Escape(token)) == token
  {
    if token != "" {
      UnescapeEscape(token[1..]);
      var e, rest := EscapeChar(token[0]), Escape(token[1..]);
      assert Escape(token) == e + rest;
      assert |e| == 2 ==> (e + rest)[2..] == rest;
      assert |e| == 1 ==> (e + rest)[1..] == rest;
      assert token == [token[0]] + token[1..];
    }
  }

  /** A token with neither of the two special characters is spelt as it is. */
  lemma {:induction false} EscapePlain(token: string)
    requires '/' !in token && '~' !in token
    ensures Escape(token) == token
  {
    if token != "" {
      assert token[0] in token;
      EscapePlain(token[1..]);
      assert token == [token[0]] + token[1..];
    }
  }

  // ---- Array indices ----

  function Digit(d: nat): char
    requires d < 10
  {
    ('0' as int + d) as char
  }

  function Itoa(n: nat): string {
    if n < 10 then [Digit(n)] else Itoa(n / 10) + [Digit(n % 10)]
  }

  lemma {:induction false} ItoaInjective(a: nat, b: nat)
    requires Itoa(a) == Itoa(b)
    ensures a == b
  {
    var x, y := Itoa(a), Itoa(b);
    assert x[|x| - 1] == Digit(a % 10) && y[|y| - 1] == Digit(b % 10);
    ItoaLong(a);
    ItoaLong(b);
    if a >= 10 && b >= 10 {
      assert Itoa(a / 10) == x[..|x| - 1] && Itoa(b / 10) == y[..|y| - 1];
      ItoaInjective(a / 10, b / 10);
    }
  }

  lemma ItoaLong(n: nat)
    ensures |Itoa(n)| == 1 <==> n < 10
  {
    if n >= 10 {
      assert |Itoa(n / 10)| > 0;
    }
  }

  /** The element of an array of n that a token names. */
  function IndexOf(token: string, n: nat): (r: Option<nat>)
    ensures r.Some? ==> r.value < n && Itoa(r.value) == token
  {
    if n == 0 then None
    else if Itoa(n - 1) == token then Some(n - 1)
    else IndexOf(token, n - 1)
  }

  lemma {:induction false} IndexOfItoa(i: nat, n: nat)
    requires i < n
    ensures IndexOf(Itoa(i), n) == Some(i)
  {
    if Itoa(n - 1) == Itoa(i) {
      ItoaInjective(n - 1, i);
    } else {
      IndexOfItoa(i, n - 1);
    }
  }

  // ---- Pointers ----

  /** What one token names in a value. */
  function Step(doc: Json, token: string): Option<Json> {
    match doc
    case JObj(members) => if token in members then Some(members[token]) else None
    case JArr(items) => (match IndexOf(token, |items|) case Some(i) => Some(items[i]) case None => None)
    case _ => None
  }

  /** The part of a document that a list of tokens leads to. */
  function Sub(doc: Json, at: seq<string>): Option<Json> {
    if |at| == 0 then Some(doc)
    else
      match Sub(doc, at[..|at| - 1])
      case Some(parent) => Step(parent, at[|at| - 1])
      case None => None
  }

  function Child(path: string, token: string): string {
    path + "/" + Escape(token)
  }

  /** The pointer that spells a list of tokens. */
  function Pointer(at: seq<string>): string {
    if |at| == 0 then "#" else Child(Pointer(at[..|at| - 1]), at[|at| - 1])
  }

  lemma LastSlash(a: string, b: string, x: string, y: string)
    requires a + "/" + x == b + "/" + y && '/' !in x && '/' !in y
    ensures a == b && x == y
  {
    var s := a + "/" + x;
    assert s[|a|] == '/' && s[|b|] == (b + "/" + y)[|b|] == '/';
    assert a == s[..|a|] && b == s[..|b|] && x == s[|a| + 1..] && y == s[|b| + 1..];
  }

  /** Neither the parent nor the token of a child's path is lost. */
  lemma ChildInjective(a: string, b: string, x: string, y: string)
    requires Child(a, x) == Child(b, y)
    ensures a == b && x == y
  {
    LastSlash(a, b, Escape(x), Escape(y));
    UnescapeEscape(x);
    UnescapeEscape(y);
  }

  lemma {:induction false} PointerLength(at: seq<string>)
    ensures if |at| == 0 then |Pointer(at)| == 1 else |Pointer(at)| > 1
  {
    if |at| > 0 {
      PointerLength(at[..|at| - 1]);
    }
  }

  /** Distinct places never share a pointer. */
  lemma {:induction false} PointerInjective(a: seq<string>, b: seq<string>)
    requires Pointer(a) == Pointer(b)
    ensures a == b
  {
    PointerLength(a);
    PointerLength(b);
    if |a| > 0 && |b| > 0 {
      var a', b' := a[..|a| - 1], b[..|b| - 1];
      var x, y := a[|a| - 1], b[|b| - 1];
      ChildInjective(Pointer(a'), Pointer(b'), x, y);
      PointerInjective(a', b');
      assert a == a' + [x] && b == b' + [y];
    }
  }

  /** v is what the document holds at this pointer. */
  ghost predicate Located(root: Json, path: string, v: Json) {
    exists at :: Pointer(at) == path && Sub(root, at) == Some(v)
  }

  lemma LocatedUnique(root: Json, path: string, v: Json, v': Json)
    requires Located(root, path, v) && Located(root, path, v')
    ensures v == v'
  {
    var at :| Pointer(at) == path && Sub(root, at) == Some(v);
    var at' :| Pointer(at') == path && Sub(root, at') == Some(v');
    PointerInjective(at, at');
  }

  lemma LocatedStep(root: Json, path: string, v: Json, token: string, child: Json)
    requires Located(root, path, v) && Step(v, token) == Some(child)
    ensures Located(root, Child(path, token), child)
  {
    var at :| Pointer(at) == path && Sub(root, at) == Some(v);
    var at' := at + [token];
    assert at'[..|at'| - 1] == at;
    assert Pointer(at') == Child(path, token);
  }

  lemma LocatedItem(root: Json, path: string, items: seq<Json>, i: nat)
    requires Located(root, path, JArr(items)) && i < |items|
    ensures Located(root, Child(path, Itoa(i)), items[i])
  {
    IndexOfItoa(i, |items|);
    LocatedStep(root, path, JArr(items), Itoa(i), items[i]);
  }

  lemma LocatedRoot(root: Json)
    ensures Located(root, "#", root)
  {
    assert Pointer([]) == "#" && Sub(root, []) == Some(root);
  }

  // ---- Reading a value as a Go type ----

  /** Into a string: null is the empty string. */
  function AsString(v: Json): Option<string> {
    if v.JStr? then Some(v.s) else if v.JNull? then Some("") else None
  }

  /** Into a list: null is the empty list. */
  function AsList(v: Json): Option<seq<Json>> {
    if v.JArr? then Some(v.items) else if v.JNull? then Some([]) else None
  }

  /** Into a map: null is the empty map. */
  function AsMap(v: Json): Option<map<string, Json>> {
    if v.JObj? then Some(v.members) else if v.JNull? then Some(map[]) else None
  }

  /** Into a list of strings: one element of another kind spoils it, null is the empty string. */
  function AsStrings(v: Json): (r: Option<seq<string>>)
    ensures r.Some? ==> AsList(v).Some? && |r.value| == |AsList(v).value|
  {
    match AsList(v)
    case None => None
    case Some(items) =>
      if forall i :: 0 <= i < |items| ==> AsString(items[i]).Some?
      then Some(seq(|items|, i requires 0 <= i < |items| => if items[i].JStr? then items[i].s else ""))
      else None
  }

  /** Into a number: a quoted number is one. */
  function AsNumber(v: Json): Option<Literal> {
    if v.JNum? then Some(v.lit) else if v.JStr? then v.quoted else None
  }
}
