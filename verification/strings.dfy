/** String helpers standing for the JavaScript built-ins the stores use:
    `trim`, `includes`, `toLowerCase`, `replace(/\s+/g, '-')` and
    number-to-string conversion in template literals. */
module Strings {

  /** The characters that ECMAScript's `trim` and the regular-expression class
      `\s` treat as white space: WhiteSpace plus LineTerminator. */
  predicate IsJsWhitespace(c: char)
  {
    c == ' ' || c == '\t' || c == '\n' || c == '\r' || c == '\U{B}' || c == '\U{C}' ||
    c == '\U{A0}' || c == '\U{1680}' || ('\U{2000}' <= c <= '\U{200A}') ||
    c == '\U{2028}' || c == '\U{2029}' || c == '\U{202F}' || c == '\U{205F}' ||
    c == '\U{3000}' || c == '\U{FEFF}'
  }

  function TrimStart(s: string): (r: string)
    ensures |r| <= |s| && r == s[|s| - |r|..]
    ensures r != [] ==> !IsJsWhitespace(r[0])
    ensures forall j :: 0 <= j < |s| - |r| ==> IsJsWhitespace(s[j])
  {
    if s != [] && IsJsWhitespace(s[0]) then TrimStart(s[1..]) else s
  }

  function TrimEnd(s: string): (r: string)
    ensures |r| <= |s| && r == s[..|r|]
    ensures r != [] ==> !IsJsWhitespace(r[|r| - 1])
    ensures forall j :: |r| <= j < |s| ==> IsJsWhitespace(s[j])
  {
    if s != [] && IsJsWhitespace(s[|s| - 1]) then TrimEnd(s[..|s| - 1]) else s
  }

  /** `String.prototype.trim`. */
  function Trim(s: string): string
  {
    TrimEnd(TrimStart(s))
  }

  /** A string is blank when every character is white space. */
  predicate IsBlank(s: string)
  {
    forall j :: 0 <= j < |s| ==> IsJsWhitespace(s[j])
  }

  /** `s.trim() !== ''` exactly when `s` holds a character that is not white space. */
  lemma TrimEmptyIffBlank(s: string)
    ensures Trim(s) == "" <==> IsBlank(s)
  {
    var t := TrimStart(s);
    if !IsBlank(s) {
      var j :| 0 <= j < |s| && !IsJsWhitespace(s[j]);
      assert t[j - (|s| - |t|)] == s[j];
    }
  }

  /** `s.includes(sub)`: `sub` occurs in `s` at some position. */
  predicate Contains(s: string, sub: string)
    decreases |s|
  {
    (|sub| <= |s| && s[..|sub|] == sub) || (s != [] && Contains(s[1..], sub))
  }

  /** A string contains every infix it is built from. */
  lemma {:induction false} ContainsInfix(s: string, pre: string, sub: string, post: string)
    requires s == pre + sub + post
    ensures Contains(s, sub)
    decreases |pre|
  {
    if pre == [] {
      assert s[..|sub|] == sub;
    } else {
      assert s[1..] == pre[1..] + sub + post;
      ContainsInfix(s[1..], pre[1..], sub, post);
    }
  }

  /** `toLowerCase` restricted to ASCII letters. */
  function LowerChar(c: char): char
  {
    if 'A' <= c <= 'Z' then (c as int - 'A' as int + 'a' as int) as char else c
  }

  function ToLower(s: string): (r: string)
    ensures |r| == |s|
    ensures forall j :: 0 <= j < |s| ==> r[j] == LowerChar(s[j])
  {
    if s == [] then [] else [LowerChar(s[0])] + ToLower(s[1..])
  }

  /** `replace(/\s+/g, '-')`: every maximal run of white space becomes one dash. */
  function DashWhitespaceRuns(s: string): (r: string)
    ensures forall j :: 0 <= j < |r| ==> !IsJsWhitespace(r[j])
    decreases |s|
  {
    if s == [] then []
    else if IsJsWhitespace(s[0]) then ['-'] + DashWhitespaceRuns(TrimStart(s))
    else [s[0]] + DashWhitespaceRuns(s[1..])
  }

  /** The front and the tail of a concatenation. */
  lemma Concat(x: string, y: string)
    ensures x == [] ==> x + y == y
    ensures x != [] ==> (x + y)[0] == x[0] && (x + y)[1..] == x[1..] + y
  {
  }

  lemma ConcatAssoc(x: string, y: string, z: string)
    ensures x + y + z == x + (y + z)
  {
  }

  /** Trimming the front of a string that is not blank only touches that string. */
  lemma {:induction false} TrimStartAppend(x: string, y: string)
    requires !IsBlank(x)
    ensures TrimStart(x + y) == TrimStart(x) + y
    decreases |x|
  {
    if IsJsWhitespace(x[0]) {
      var j :| 0 <= j < |x| && !IsJsWhitespace(x[j]);
      assert !IsJsWhitespace(x[1..][j - 1]);
      assert (x + y)[1..] == x[1..] + y;
      TrimStartAppend(x[1..], y);
    }
  }

  /** Trimming the front of a white-space run followed by a string that does
      not start with white space leaves that string. */
  lemma {:induction false} TrimStartBlank(w: string, b: string)
    requires IsBlank(w) && (b == [] || !IsJsWhitespace(b[0]))
    ensures TrimStart(w + b) == b
    decreases |w|
  {
    Concat(w, b);
    if w != [] {
      TrimStartBlank(w[1..], b);
    }
  }

  /** A string without white space is left as it is. */
  lemma {:induction false} DashWhitespaceRunsPlain(s: string)
    requires forall j :: 0 <= j < |s| ==> !IsJsWhitespace(s[j])
    ensures DashWhitespaceRuns(s) == s
    decreases |s|
  {
    if s != [] {
      DashWhitespaceRunsPlain(s[1..]);
    }
  }

  /** A leading white-space run becomes one dash before the rest. */
  lemma DashLeadingRun(w: string, b: string)
    requires w != [] && IsBlank(w)
    requires b == [] || !IsJsWhitespace(b[0])
    ensures DashWhitespaceRuns(w + b) == "-" + DashWhitespaceRuns(b)
  {
    Concat(w, b);
    TrimStartBlank(w, b);
  }

  /** Trimming the front of a string that ends in text keeps that end. */
  lemma TrimStartKeepsLast(a: string)
    requires a != [] && !IsJsWhitespace(a[|a| - 1])
    ensures !IsBlank(a)
    ensures TrimStart(a) != [] && TrimStart(a)[|TrimStart(a)| - 1] == a[|a| - 1]
    ensures |TrimStart(a)| < |a| || !IsJsWhitespace(a[0])
  {
  }

  /** Replacing in `a + y` where `a` starts with white space but is not
      blank: the leading run of `a` becomes the first dash either way. */
  lemma DashSkipsLeadingRun(a: string, y: string)
    requires a != [] && IsJsWhitespace(a[0]) && !IsBlank(a)
    ensures DashWhitespaceRuns(a) == "-" + DashWhitespaceRuns(TrimStart(a))
    ensures DashWhitespaceRuns(a + y) == "-" + DashWhitespaceRuns(TrimStart(a) + y)
  {
    TrimStartAppend(a, y);
    Concat(a, y);
  }

  /** Replacing in `a + y` where `a` starts with text: that character is
      copied either way. */
  lemma DashKeepsLeadingText(a: string, y: string)
    requires a != [] && !IsJsWhitespace(a[0])
    ensures DashWhitespaceRuns(a) == [a[0]] + DashWhitespaceRuns(a[1..])
    ensures DashWhitespaceRuns(a + y) == [a[0]] + DashWhitespaceRuns(a[1..] + y)
  {
    Concat(a, y);
  }

  /** The sequence algebra closing each step of `JoinRuns`. */
  lemma Regroup(head: string, x: string, a: string, rest: string, tail: string)
    requires x == head + (rest + "-" + tail) && a == head + rest
    ensures x == a + "-" + tail
  {
  }

  /** The sequence algebra closing the first case of `JoinRuns`. */
  lemma DropEmpty(e: string, x: string, tail: string)
    requires e == [] && x == "-" + tail
    ensures x == e + "-" + tail
  {
  }

  /** A maximal run of white space, with text or the end of the string on
      either side, becomes exactly one dash, and the text around it is
      replaced independently. */
  lemma DashWhitespaceRunsJoin(a: string, w: string, b: string)
    requires a == [] || !IsJsWhitespace(a[|a| - 1])
    requires w != [] && IsBlank(w)
    requires b == [] || !IsJsWhitespace(b[0])
    ensures DashWhitespaceRuns(a + w + b) == DashWhitespaceRuns(a) + "-" + DashWhitespaceRuns(b)
  {
    JoinRuns(a, w, b);
    ConcatAssoc(a, w, b);
  }

  /** `DashWhitespaceRunsJoin`, by induction on the text before the run. */
  lemma {:induction false} JoinRuns(a: string, w: string, b: string)
    requires a == [] || !IsJsWhitespace(a[|a| - 1])
    requires w != [] && IsBlank(w)
    requires b == [] || !IsJsWhitespace(b[0])
    ensures DashWhitespaceRuns(a + (w + b)) == DashWhitespaceRuns(a) + "-" + DashWhitespaceRuns(b)
    decreases |a|
  {
    if a == [] {
      Concat(a, w + b);
      DashLeadingRun(w, b);
      DropEmpty(DashWhitespaceRuns(a), DashWhitespaceRuns(a + (w + b)), DashWhitespaceRuns(b));
    } else if IsJsWhitespace(a[0]) {
      TrimStartKeepsLast(a);
      JoinRuns(TrimStart(a), w, b);
      JoinPastRun(a, w + b, DashWhitespaceRuns(b));
    } else {
      JoinRuns(a[1..], w, b);
      JoinPastText(a, w + b, DashWhitespaceRuns(b));
    }
  }

  /** The step of `JoinRuns` past a leading white-space run of `a`. */
  lemma JoinPastRun(a: string, y: string, tail: string)
    requires a != [] && IsJsWhitespace(a[0]) && !IsBlank(a)
    requires DashWhitespaceRuns(TrimStart(a) + y) == DashWhitespaceRuns(TrimStart(a)) + "-" + tail
    ensures DashWhitespaceRuns(a + y) == DashWhitespaceRuns(a) + "-" + tail
  {
    DashSkipsLeadingRun(a, y);
    Regroup("-", DashWhitespaceRuns(a + y), DashWhitespaceRuns(a),
            DashWhitespaceRuns(TrimStart(a)), tail);
  }

  /** The step of `JoinRuns` past a leading character of `a` that is text. */
  lemma JoinPastText(a: string, y: string, tail: string)
    requires a != [] && !IsJsWhitespace(a[0])
    requires DashWhitespaceRuns(a[1..] + y) == DashWhitespaceRuns(a[1..]) + "-" + tail
    ensures DashWhitespaceRuns(a + y) == DashWhitespaceRuns(a) + "-" + tail
  {
    DashKeepsLeadingText(a, y);
    Regroup([a[0]], DashWhitespaceRuns(a + y), DashWhitespaceRuns(a),
            DashWhitespaceRuns(a[1..]), tail);
  }

  function DigitChar(d: nat): char
    requires d < 10
  {
    "0123456789"[d]
  }

  /** Decimal rendering of a natural number, as `${n}` prints it. */
  function NatToString(n: nat): (r: string)
    ensures |r| >= 1
    ensures n >= 10 ==> |r| >= 2
    ensures r[|r| - 1] == DigitChar(n % 10)
  {
    if n < 10 then [DigitChar(n)] else NatToString(n / 10) + [DigitChar(n % 10)]
  }

  lemma DigitCharInjective(a: nat, b: nat)
    requires a < 10 && b < 10 && DigitChar(a) == DigitChar(b)
    ensures a == b
  {
  }

  /** Different numbers print differently. */
  lemma {:induction false} NatToStringInjective(a: nat, b: nat)
    requires NatToString(a) == NatToString(b)
    ensures a == b
  {
    DigitCharInjective(a % 10, b % 10);
    if a >= 10 && b >= 10 {
      var sa, sb := NatToString(a), NatToString(b);
      assert NatToString(a / 10) == sa[..|sa| - 1];
      assert NatToString(b / 10) == sb[..|sb| - 1];
      NatToStringInjective(a / 10, b / 10);
    }
  }
}
