/** The pieces of Go's `strings` and `fmt` packages that the modelled code
    calls: `TrimSpace`, byte length and byte indexing of UTF-8 text, `Join`,
    and `Sprintf` with `%s` verbs. A Go string here is a `string` of Unicode
    scalar values; where Go looks at bytes, `Utf8` gives them. */
module Text {

  /** `unicode.IsSpace`: the Latin-1 spaces and the White_Space property. */
  predicate IsSpace(c: char) {
    || c == '\t' || c == '\n' || c == '\U{000B}' || c == '\U{000C}' || c == '\r' || c == ' '
    || c == '\U{0085}' || c == '\U{00A0}' || c == '\U{1680}'
    || ('\U{2000}' <= c <= '\U{200A}')
    || c == '\U{2028}' || c == '\U{2029}' || c == '\U{202F}' || c == '\U{205F}' || c == '\U{3000}'
  }

  /** `strings.TrimLeftFunc`: drops the leading characters f accepts. */
  function TrimLeftFunc(s: string, f: char -> bool): string
  {
    if s != [] && f(s[0]) then TrimLeftFunc(s[1..], f) else s
  }

  /** `strings.TrimRightFunc`: drops the trailing characters f accepts. */
  function TrimRightFunc(s: string, f: char -> bool): string
  {
    if s != [] && f(s[|s| - 1]) then TrimRightFunc(s[..|s| - 1], f) else s
  }

  /** TrimLeftFunc keeps a suffix, drops only accepted characters, and
      stops at one it does not accept. */
  lemma {:induction false} TrimLeftFuncSpec(s: string, f: char -> bool)
    ensures var r := TrimLeftFunc(s, f);
      && |r| <= |s| && r == s[|s| - |r|..]
      && (forall i :: 0 <= i < |s| - |r| ==> f(s[i]))
      && (r != [] ==> !f(r[0]))
  {
    if s != [] && f(s[0]) {
      TrimLeftFuncSpec(s[1..], f);
      var r := TrimLeftFunc(s[1..], f);
      forall i | 1 <= i < |s| - |r| ensures f(s[i]) {
        assert s[1..][i - 1] == s[i];
      }
    }
  }

  /** TrimRightFunc keeps a prefix, drops only accepted characters, and
      stops at one it does not accept. */
  lemma {:induction false} TrimRightFuncSpec(s: string, f: char -> bool)
    ensures var r := TrimRightFunc(s, f);
      && |r| <= |s| && r == s[..|r|]
      && (forall i :: |r| <= i < |s| ==> f(s[i]))
      && (r != [] ==> !f(r[|r| - 1]))
  {
    if s != [] && f(s[|s| - 1]) {
      TrimRightFuncSpec(s[..|s| - 1], f);
      var r := TrimRightFunc(s[..|s| - 1], f);
      forall i | |r| <= i < |s| - 1 ensures f(s[i]) {
        assert s[..|s| - 1][i] == s[i];
      }
    }
  }

  /** `strings.TrimSpace`: both ends trimmed of white space. */
  function TrimSpace(s: string): string
  {
    TrimRightFunc(TrimLeftFunc(s, IsSpace), IsSpace)
  }

  /** Trimming both ends leaves the middle of the text, between a run of
      accepted characters on each side. */
  lemma TrimFuncShape(s: string, f: char -> bool)
    ensures var l := TrimLeftFunc(s, f);
      var r, i := TrimRightFunc(l, f), |s| - |l|;
      0 <= i <= i + |r| <= |s| && r == s[i..i + |r|]
        && (forall k :: 0 <= k < i ==> f(s[k]))
        && (forall k :: i + |r| <= k < |s| ==> f(s[k]))
  {
    var l := TrimLeftFunc(s, f);
    TrimLeftFuncSpec(s, f);
    TrimRightFuncSpec(l, f);
    MiddleShape(s, l, TrimRightFunc(l, f), f);
  }

  /** A prefix r of a suffix l of s, where f accepts what s has before l
      and what l has after r, is a slice of s with accepted characters on
      both sides. */
  lemma MiddleShape(s: string, l: string, r: string, f: char -> bool)
    requires |l| <= |s| && l == s[|s| - |l|..]
    requires forall k :: 0 <= k < |s| - |l| ==> f(s[k])
    requires |r| <= |l| && r == l[..|r|]
    requires forall k :: |r| <= k < |l| ==> f(l[k])
    ensures var i := |s| - |l|;
      r == s[i..i + |r|] && forall k :: i + |r| <= k < |s| ==> f(s[k])
  {
    var i := |s| - |l|;
    forall k | i + |r| <= k < |s| ensures f(s[k]) {
      assert l[k - i] == s[k];
    }
  }

  /** What TrimSpace leaves is the middle of the text, between a run of
      white space on each side. */
  lemma TrimSpaceShape(s: string)
    ensures var r, i := TrimSpace(s), |s| - |TrimLeftFunc(s, IsSpace)|;
      0 <= i <= i + |r| <= |s| && r == s[i..i + |r|]
        && (forall k :: 0 <= k < i ==> IsSpace(s[k]))
        && (forall k :: i + |r| <= k < |s| ==> IsSpace(s[k]))
  {
    TrimFuncShape(s, IsSpace);
  }

  /** What TrimSpace leaves neither starts nor ends with white space. */
  lemma TrimSpaceEnds(s: string)
    ensures var r := TrimSpace(s);
      r != [] ==> !IsSpace(r[0]) && !IsSpace(r[|r| - 1])
  {
    var l := TrimLeftFunc(s, IsSpace);
    var r := TrimRightFunc(l, IsSpace);
    TrimLeftFuncSpec(s, IsSpace);
    TrimRightFuncSpec(l, IsSpace);
    if r != [] {
      assert r[0] == l[0];
    }
  }

  /** Trimming twice is trimming once. */
  lemma TrimSpaceIdempotent(s: string)
    ensures TrimSpace(TrimSpace(s)) == TrimSpace(s)
  {
    var r := TrimSpace(s);
    TrimSpaceEnds(s);
    assert TrimLeftFunc(r, IsSpace) == r;
    assert TrimRightFunc(r, IsSpace) == r;
  }

  /** A character is an ASCII character. */
  predicate IsAscii(c: char) { c as int < 0x80 }

  /** The UTF-8 bytes of one scalar value. */
  function EncodeRune(c: char): (b: seq<int>)
    ensures 1 <= |b| <= 4
    ensures forall i :: 0 <= i < |b| ==> 0 <= b[i] < 0x100
    ensures |b| == 1 <==> IsAscii(c)
    ensures IsAscii(c) ==> b == [c as int]
    ensures !IsAscii(c) ==> forall i :: 0 <= i < |b| ==> b[i] >= 0x80
  {
    var n := c as int;
    if n < 0x80 then [n]
    else if n < 0x800 then [0xC0 + n / 0x40, 0x80 + n % 0x40]
    else if n < 0x1_0000 then [0xE0 + n / 0x1000, 0x80 + (n / 0x40) % 0x40, 0x80 + n % 0x40]
    else [0xF0 + n / 0x4_0000, 0x80 + (n / 0x1000) % 0x40, 0x80 + (n / 0x40) % 0x40, 0x80 + n % 0x40]
  }

  /** The bytes Go stores for a string: `len(s)` is their number and `s[i]`
      the i-th of them. */
  function Utf8(s: string): (b: seq<int>)
    ensures |b| >= |s|
    ensures forall i :: 0 <= i < |b| ==> 0 <= b[i] < 0x100
  {
    if s == [] then [] else EncodeRune(s[0]) + Utf8(s[1..])
  }

  /** On ASCII text the bytes are the characters, one for one. */
  lemma {:induction false} Utf8Ascii(s: string)
    requires forall i :: 0 <= i < |s| ==> IsAscii(s[i])
    ensures |Utf8(s)| == |s|
    ensures forall i :: 0 <= i < |s| ==> Utf8(s)[i] == s[i] as int
  {
    if s != [] {
      Utf8Ascii(s[1..]);
    }
  }

  /** Every ASCII byte of the encoding is an ASCII character of the text:
      a byte below 0x80 never comes from a multi-byte character. */
  lemma {:induction false} Utf8AsciiByte(s: string, k: nat)
    requires k < |Utf8(s)| && Utf8(s)[k] < 0x80
    ensures exists j :: 0 <= j < |s| && s[j] as int == Utf8(s)[k]
  {
    var head := EncodeRune(s[0]);
    if k < |head| {
      assert IsAscii(s[0]);
    } else {
      assert Utf8(s)[k] == Utf8(s[1..])[k - |head|];
      Utf8AsciiByte(s[1..], k - |head|);
      var j :| 0 <= j < |s[1..]| && s[1..][j] as int == Utf8(s)[k];
      assert s[j + 1] == s[1..][j];
    }
  }

  /** `strings.Join(parts, sep)`. */
  function Join(parts: seq<string>, sep: string): string
  {
    if |parts| == 0 then ""
    else if |parts| == 1 then parts[0]
    else parts[0] + sep + Join(parts[1..], sep)
  }

  function TotalLength(parts: seq<string>): nat
  {
    if parts == [] then 0 else |parts[0]| + TotalLength(parts[1..])
  }

  /** Join adds exactly one separator between neighbours and nothing else. */
  lemma {:induction false} JoinLength(parts: seq<string>, sep: string)
    requires parts != []
    ensures |Join(parts, sep)| == TotalLength(parts) + (|parts| - 1) * |sep|
  {
    if |parts| > 1 {
      JoinLength(parts[1..], sep);
    }
  }

  /** Joining one more part appends a separator and that part. */
  lemma {:induction false} JoinSnoc(parts: seq<string>, last: string, sep: string)
    requires parts != []
    ensures Join(parts + [last], sep) == Join(parts, sep) + sep + last
  {
    if |parts| == 1 {
      assert (parts + [last])[1..] == [last];
    } else {
      assert (parts + [last])[1..] == parts[1..] + [last];
      JoinSnoc(parts[1..], last, sep);
    }
  }

  /** The letters of the two verbs modelled, `%s` and `%v`. */
  predicate IsVerbLetter(c: char) { c == 's' || c == 'v' }

  /** The number of `%s` and `%v` verbs in a format string. */
  function VerbCount(format: string): nat
  {
    if |format| < 2 then 0
    else if format[0] == '%' && IsVerbLetter(format[1]) then 1 + VerbCount(format[2..])
    else VerbCount(format[1..])
  }

  /** The two verbs, and what Sprintf prints for each when it is left
      without an argument. */
  const Verb := "%s"
  const ValueVerb := "%v"
  const MissingVerb := "%!s(MISSING)"
  const MissingValueVerb := "%!v(MISSING)"

  /** `fmt.Sprintf` for format strings whose only verbs are `%s` and `%v`
      and whose arguments are strings (an error argument stands for the text
      its `Error()` returns, which is what both verbs print for it): each
      verb takes the next argument, a verb left without one prints
      `%!s(MISSING)` or `%!v(MISSING)`, and arguments left over are listed
      after `%!(EXTRA`. */
  function Sprintf(format: string, args: seq<string>): string
  {
    if |format| >= 2 && format[0] == '%' && IsVerbLetter(format[1]) then
      (if args == [] then (if format[1] == 's' then MissingVerb else MissingValueVerb) + Sprintf(format[2..], [])
       else args[0] + Sprintf(format[2..], args[1..]))
    else if format != [] then [format[0]] + Sprintf(format[1..], args)
    else if args == [] then ""
    else "%!(EXTRA " + ExtraList(args) + ")"
  }

  function ExtraList(args: seq<string>): string
    requires args != []
  {
    if |args| == 1 then "string=" + args[0] else "string=" + args[0] + ", " + ExtraList(args[1..])
  }

  /** With as many arguments as verbs, each verb is replaced by its argument
      and nothing is added: the result is the format without its verbs plus
      the arguments. */
  lemma {:induction false} SprintfExact(format: string, args: seq<string>)
    requires VerbCount(format) == |args|
    ensures |Sprintf(format, args)| == |format| - 2 * |args| + TotalLength(args)
  {
    if |format| >= 2 && format[0] == '%' && IsVerbLetter(format[1]) {
      SprintfExact(format[2..], args[1..]);
    } else if format != [] {
      if |format| >= 2 {
        assert VerbCount(format) == VerbCount(format[1..]);
      } else {
        assert VerbCount(format[1..]) == 0;
      }
      SprintfExact(format[1..], args);
    }
  }

  /** With fewer arguments than verbs, every verb left over prints the
      twelve characters of `%!s(MISSING)` or `%!v(MISSING)`. */
  lemma {:induction false} SprintfMissing(format: string, args: seq<string>)
    requires VerbCount(format) >= |args|
    ensures |Sprintf(format, args)| == |format| - 2 * |args| + TotalLength(args) + 10 * (VerbCount(format) - |args|)
  {
    if |format| >= 2 && format[0] == '%' && IsVerbLetter(format[1]) {
      if args == [] {
        SprintfMissing(format[2..], []);
      } else {
        SprintfMissing(format[2..], args[1..]);
      }
    } else if format != [] {
      if |format| >= 2 {
        assert VerbCount(format) == VerbCount(format[1..]);
      } else {
        assert VerbCount(format[1..]) == 0;
      }
      SprintfMissing(format[1..], args);
    }
  }

  /** A format that starts with a verb starts its result with the first
      argument. */
  lemma SprintfLeadingVerb(format: string, args: seq<string>)
    requires |format| >= 2 && format[0] == '%' && IsVerbLetter(format[1]) && args != []
    ensures args[0] <= Sprintf(format, args)
  {
  }

  /** Text with no `%` in it, which Sprintf copies as it is. */
  predicate NoPercent(s: string) {
    forall i :: 0 <= i < |s| ==> s[i] != '%'
  }

  /** Sprintf copies a leading run of text without `%` and goes on with the
      rest. */
  lemma {:induction false} SprintfPlain(p: string, rest: string, args: seq<string>)
    requires NoPercent(p)
    ensures Sprintf(p + rest, args) == p + Sprintf(rest, args)
  {
    if p != [] {
      var f := p + rest;
      assert f[0] == p[0] && f[0] != '%';
      assert f[1..] == p[1..] + rest;
      assert NoPercent(p[1..]) by {
        forall i | 0 <= i < |p[1..]|
          ensures p[1..][i] != '%'
        {
          assert p[1..][i] == p[i + 1];
        }
      }
      SprintfPlain(p[1..], rest, args);
      assert Sprintf(f, args) == [p[0]] + Sprintf(f[1..], args);
      ConsAppend(p, Sprintf(rest, args));
    } else {
      assert p + rest == rest;
    }
  }

  lemma ConsAppend(p: string, s: string)
    requires p != []
    ensures [p[0]] + (p[1..] + s) == p + s
  {
    assert [p[0]] + p[1..] == p;
  }

  /** A verb takes the next argument. */
  lemma SprintfVerb(verb: string, rest: string, a: string, more: seq<string>)
    requires verb == Verb || verb == ValueVerb
    ensures Sprintf(verb + rest, [a] + more) == a + Sprintf(rest, more)
  {
    var f := verb + rest;
    assert f[0] == '%' && IsVerbLetter(f[1]) && f[2..] == rest;
    assert ([a] + more)[0] == a && ([a] + more)[1..] == more;
  }

  /** A format of one verb between two plain texts, given one argument. */
  lemma SprintfOne(verb: string, p: string, q: string, a: string)
    requires verb == Verb || verb == ValueVerb
    requires NoPercent(p) && NoPercent(q)
    ensures Sprintf(p + (verb + q), [a]) == p + (a + q)
  {
    SprintfPlain(p, verb + q, [a]);
    SprintfVerbOne(verb, q, a);
    SprintfPlainAlone(q);
  }

  /** A format of two verbs between plain texts, given two arguments. */
  lemma SprintfTwo(p: string, q: string, r: string, a: string, b: string)
    requires NoPercent(p) && NoPercent(q) && NoPercent(r)
    ensures Sprintf(p + (Verb + (q + (Verb + r))), [a, b]) == p + (a + (q + (b + r)))
  {
    SprintfPlain(p, Verb + (q + (Verb + r)), [a, b]);
    assert [a, b] == [a] + [b];
    SprintfVerb(Verb, q + (Verb + r), a, [b]);
    SprintfOne(Verb, q, r, b);
  }

  /** A verb with no argument left prints `%!s(MISSING)`. */
  lemma SprintfVerbMissing(rest: string)
    ensures Sprintf(Verb + rest, []) == MissingVerb + Sprintf(rest, [])
  {
    var f := Verb + rest;
    assert f[0] == '%' && f[1] == 's' && f[2..] == rest;
  }

  /** A plain text with no arguments prints as itself. */
  lemma SprintfPlainAlone(p: string)
    requires NoPercent(p)
    ensures Sprintf(p, []) == p
  {
    assert p == p + "";
    SprintfPlain(p, "", []);
  }

  /** A format of two verbs given one argument: the second verb prints
      `%!s(MISSING)`. */
  lemma SprintfMissingSecond(q: string, r: string, a: string)
    requires NoPercent(q) && NoPercent(r)
    ensures Sprintf(Verb + (q + (Verb + r)), [a]) == a + (q + (MissingVerb + r))
  {
    SprintfVerbOne(Verb, q + (Verb + r), a);
    SprintfPlain(q, Verb + r, []);
    SprintfVerbMissing(r);
    SprintfPlainAlone(r);
  }

  /** A verb given the last argument. */
  lemma SprintfVerbOne(verb: string, rest: string, a: string)
    requires verb == Verb || verb == ValueVerb
    ensures Sprintf(verb + rest, [a]) == a + Sprintf(rest, [])
  {
    assert [a] == [a] + [];
    SprintfVerb(verb, rest, a, []);
  }
}
