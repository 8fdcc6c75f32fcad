/** The result normalisation of `getLikesCountRequest`
    (src/api/commands/likes.js): the like-count endpoint's payload, whatever
    its shape, becomes a number. */
module Likes {
  import opened Wrappers
  import opened JsonValues
  import Decimal

  /** The characters `Number(string)` strips from both ends: the ECMAScript
      white space (including every space separator) and line terminators. */
  predicate IsStrWhiteSpace(c: char) {
    || c == '\t' || c == '\n' || c == '\U{000B}' || c == '\U{000C}' || c == '\r' || c == ' '
    || c == '\U{00A0}' || c == '\U{1680}' || ('\U{2000}' <= c <= '\U{200A}')
    || c == '\U{2028}' || c == '\U{2029}' || c == '\U{202F}' || c == '\U{205F}'
    || c == '\U{3000}' || c == '\U{FEFF}'
  }

  function TrimStart(s: string): (t: string)
    ensures |t| <= |s| && t == s[|s| - |t|..]
    ensures t != [] ==> !IsStrWhiteSpace(t[0])
  {
    if s != [] && IsStrWhiteSpace(s[0]) then TrimStart(s[1..]) else s
  }

  function TrimEnd(s: string): (t: string)
    ensures |t| <= |s| && t == s[..|t|]
    ensures t != [] ==> !IsStrWhiteSpace(t[|t| - 1])
  {
    if s != [] && IsStrWhiteSpace(s[|s| - 1]) then TrimEnd(s[..|s| - 1]) else s
  }

  /** White space removed from both ends, as `Number` does first. */
  function Trim(s: string): (t: string)
    ensures |t| <= |s|
    ensures t != [] ==> !IsStrWhiteSpace(t[0]) && !IsStrWhiteSpace(t[|t| - 1])
  {
    TrimEnd(TrimStart(s))
  }

  /** A trimmed literal: the empty string is 0, and an optional sign followed
      by decimal digits is that integer. `None` stands for NaN. */
  function NumberLiteral(t: string): Option<int> {
    if t == "" then Some(0)
    else if (t[0] == '+' || t[0] == '-') && |t| > 1 && Decimal.AllDigits(t[1..]) then
      var magnitude: int := Decimal.Parse(t[1..]);
      Some(if t[0] == '-' then -magnitude else magnitude)
    else if Decimal.AllDigits(t) then Some(Decimal.Parse(t))
    else None
  }

  /** `Number(s)` for the integer literals it accepts, after trimming white
      space. */
  function ParseInteger(s: string): Option<int> {
    NumberLiteral(Trim(s))
  }

  /** The literal forms `Number` reads as integers: the empty string is 0,
      decimal digits are their value, a leading `-` or `+` negates or keeps
      it, and a sign on its own is NaN. */
  lemma ParseIntegerForms(s: string)
    ensures s == "" ==> ParseInteger(s) == Some(0)
    ensures s != [] && Decimal.AllDigits(s) ==> ParseInteger(s) == Some(Decimal.Parse(s))
    ensures |s| > 1 && s[0] == '-' && Decimal.AllDigits(s[1..]) ==> ParseInteger(s).Some? && ParseInteger(s).value + Decimal.Parse(s[1..]) == 0
    ensures |s| > 1 && s[0] == '+' && Decimal.AllDigits(s[1..]) ==> ParseInteger(s) == Some(Decimal.Parse(s[1..]))
    ensures |s| == 1 && (s[0] == '+' || s[0] == '-') ==> ParseInteger(s).None?
  {
    if s != [] {
      var first, last := s[0], s[|s| - 1];
      if Decimal.AllDigits(s) {
        assert Decimal.IsDigit(first) && Decimal.IsDigit(last);
        TrimLeavesUnchanged(s);
      } else if |s| > 1 && (first == '-' || first == '+') && Decimal.AllDigits(s[1..]) {
        assert last == s[1..][|s| - 2];
        TrimLeavesUnchanged(s);
      } else if |s| == 1 && (first == '-' || first == '+') {
        TrimLeavesUnchanged(s);
      }
    }
  }

  /** A string without white space at either end is its own trimmed form. */
  lemma TrimLeavesUnchanged(s: string)
    requires s != [] && !IsStrWhiteSpace(s[0]) && !IsStrWhiteSpace(s[|s| - 1])
    ensures Trim(s) == s
  {
  }

  /** Trimming at the front: appending one character to a string either
      leaves its trimmed start empty (when that character is white space and
      the string was all white space) or appends it there too. */
  lemma {:induction false} TrimStartAppend(u: string, c: char)
    ensures TrimStart(u + [c]) == if TrimStart(u) == [] then TrimStart([c]) else TrimStart(u) + [c]
    decreases |u|
  {
    if u != [] {
      assert (u + [c])[0] == u[0];
      assert (u + [c])[1..] == u[1..] + [c];
      if IsStrWhiteSpace(u[0]) {
        TrimStartAppend(u[1..], c);
      }
    }
  }

  /** Trimming ignores one white-space character at the end. */
  lemma TrimDropsTrailingWhiteSpace(u: string, c: char)
    requires IsStrWhiteSpace(c)
    ensures Trim(u + [c]) == Trim(u)
  {
    TrimStartAppend(u, c);
    if TrimStart(u) != [] {
      var t := TrimStart(u) + [c];
      assert t[..|t| - 1] == TrimStart(u);
    } else {
      assert TrimStart([c]) == [];
    }
  }

  /** `Number(s)` ignores white space around the number: one white-space
      character at either end changes nothing. */
  lemma {:induction false} WhiteSpaceIgnored(s: string)
    requires s != []
    ensures IsStrWhiteSpace(s[0]) ==> ParseInteger(s) == ParseInteger(s[1..])
    ensures IsStrWhiteSpace(s[|s| - 1]) ==> ParseInteger(s) == ParseInteger(s[..|s| - 1])
  {
    if IsStrWhiteSpace(s[0]) {
      assert Trim(s) == Trim(s[1..]);
    }
    if IsStrWhiteSpace(s[|s| - 1]) {
      assert s == s[..|s| - 1] + [s[|s| - 1]];
      TrimDropsTrailingWhiteSpace(s[..|s| - 1], s[|s| - 1]);
    }
  }

  /** The checks of `getLikesCountRequest`, in order, first match wins: a
      number is returned as it is, a numeric string as its value, an object's
      numeric `count` as that count, and anything else as 0. */
  function LikesCount(data: Json): (n: int)
    ensures data.JNum? ==> n == data.n
    ensures data.JStr? && ParseInteger(data.s).Some? ==> n == ParseInteger(data.s).value
    ensures data.JStr? && ParseInteger(data.s).None? ==> n == 0
    ensures data.JObj? && "count" in data.fields && data.fields["count"].JNum? ==> n == data.fields["count"].n
    ensures data.JObj? && !("count" in data.fields && data.fields["count"].JNum?) ==> n == 0
    ensures data.JNull? || data.JBool? || data.JArr? ==> n == 0
  {
    match data
    case JNum(v) => v
    case JStr(s) => if ParseInteger(s).Some? then ParseInteger(s).value else 0
    // `data && typeof data.count === 'number'`: only an object (always truthy)
    // has a `count` property
    case JObj(fields) => if "count" in fields && fields["count"].JNum? then fields["count"].n else 0
    case _ => 0
  }

  /** A count written by `String(n)` reads back as `n`. */
  lemma {:induction false} ParseNumberText(n: int)
    ensures ParseInteger(NumberText(n)) == Some(n)
  {
    if n < 0 {
      var d := Decimal.Show(-n);
      var t := "-" + d;
      assert t[1..] == d;
      Decimal.ParseShow(-n);
      assert |t| > 1 && t[0] == '-';
      assert Decimal.AllDigits(t[1..]);
      assert Decimal.Parse(t[1..]) == -n;
      ParseIntegerForms(t);
      assert ParseInteger(t).Some?;
      assert ParseInteger(t).value == n;
      assert ParseInteger(t) == Some(n);
      assert NumberText(n) == t;
    } else {
      Decimal.ParseShow(n);
      ParseIntegerForms(Decimal.Show(n));
      assert ParseInteger(Decimal.Show(n)) == Some(n);
      assert NumberText(n) == Decimal.Show(n);
    }
  }

  /** The three shapes in which the backend may send a count (a number, its
      decimal text, `{count: n}`) all normalise to that count. */
  lemma CountEncodingsAgree(n: int)
    ensures LikesCount(JNum(n)) == n
    ensures LikesCount(JStr(NumberText(n))) == n
    ensures LikesCount(JObj(map["count" := JNum(n)])) == n
  {
    ParseNumberText(n);
  }
}
