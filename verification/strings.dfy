/** The string built-ins the tool relies on, with JavaScript's semantics:
    String.prototype.trim, String.prototype.split with a one-character
    separator, Array.prototype.join and toUpperCase (ASCII letters only). */
module JsStrings {
  import opened Lists

  /** The characters `trim` removes: ECMAScript WhiteSpace and LineTerminator. */
  predicate IsSpace(c: char)
  {
    c == ' ' || c == '\t' || c == '\n' || c == '\r' || c == '\U{000B}' || c == '\U{000C}'
    || c == '\U{00A0}' || c == '\U{1680}' || ('\U{2000}' <= c <= '\U{200A}')
    || c == '\U{2028}' || c == '\U{2029}' || c == '\U{202F}' || c == '\U{205F}'
    || c == '\U{3000}' || c == '\U{FEFF}'
  }

  /** A string that trims to the empty string (`!s.trim()`). */
  predicate IsBlank(s: string)
  {
    forall i :: 0 <= i < |s| ==> IsSpace(s[i])
  }

  predicate NonBlank(s: string)
  {
    !IsBlank(s)
  }

  predicate NonEmpty(s: string)
  {
    s != ""
  }

  /** Non-empty, and neither starts nor ends with white space: what a
      trimmed non-empty string looks like. */
  predicate Solid(s: string)
  {
    |s| > 0 && !IsSpace(s[0]) && !IsSpace(s[|s| - 1])
  }

  /** Every piece is solid. */
  predicate AllSolid(parts: seq<string>)
  {
    forall i :: 0 <= i < |parts| ==> Solid(parts[i])
  }

  lemma AllSolidAppend(a: seq<string>, b: seq<string>)
    requires AllSolid(a) && AllSolid(b)
    ensures AllSolid(a + b)
  {
  }

  /** The number of white-space characters at the start of `s`. */
  function LeadingSpaces(s: string): (n: nat)
    ensures n <= |s|
    ensures forall i :: 0 <= i < n ==> IsSpace(s[i])
    ensures n < |s| ==> !IsSpace(s[n])
  {
    if |s| == 0 || !IsSpace(s[0]) then 0 else 1 + LeadingSpaces(s[1..])
  }

  /** The number of white-space characters at the end of `s`. */
  function TrailingSpaces(s: string): (n: nat)
    ensures n <= |s|
    ensures forall i :: |s| - n <= i < |s| ==> IsSpace(s[i])
    ensures n < |s| ==> !IsSpace(s[|s| - 1 - n])
  {
    if |s| == 0 || !IsSpace(s[|s| - 1]) then 0 else 1 + TrailingSpaces(s[..|s| - 1])
  }

  /** String.prototype.trim: drops the white space at both ends and keeps
      the rest as it is. */
  function Trim(s: string): (r: string)
    ensures r == "" <==> IsBlank(s)
    ensures r == "" || Solid(r)
  {
    var a := LeadingSpaces(s);
    if a == |s| then ""
    else
      var b := |s| - TrailingSpaces(s);
      s[a..b]
  }

  /** Trimming only removes characters: every character of the result
      occurs in the input. */
  lemma TrimKeepsCharacters(s: string)
    ensures forall c :: c in Trim(s) ==> c in s
  {
    var r := Trim(s);
    if r != "" {
      var a := LeadingSpaces(s);
      forall c | c in r ensures c in s {
        var i :| 0 <= i < |r| && r[i] == c;
        assert s[a + i] == c;
      }
    }
  }

  /** Trimming cuts `s` into a blank head, the result and a blank tail: only
      white space is dropped, and only at the two ends. With Trim's own
      contract (the result is empty or solid) the result is the whole of `s`
      between its leading and its trailing white space. */
  lemma TrimDropsOnlyEnds(s: string)
    ensures var t := Trim(s); var a := LeadingSpaces(s);
            a + |t| <= |s|
            && (forall i :: 0 <= i < a ==> IsSpace(s[i]))
            && (forall i :: 0 <= i < |t| ==> t[i] == s[a + i])
            && (forall i :: a + |t| <= i < |s| ==> IsSpace(s[i]))
  {
    var t := Trim(s);
    var a := LeadingSpaces(s);
    if a < |s| {
      var n := TrailingSpaces(s);
      assert !IsSpace(s[a]);
      assert a < |s| - n;
      assert t == s[a..|s| - n];
    }
  }

  /** Trimming twice is trimming once. */
  lemma TrimIdempotent(s: string)
    ensures Trim(Trim(s)) == Trim(s)
  {
    var t := Trim(s);
    if t != "" {
      assert LeadingSpaces(t) == 0;
      assert TrailingSpaces(t) == 0;
      assert t[0..|t|] == t;
    }
  }

  /** Array.prototype.join. */
  function Join(parts: seq<string>, sep: string): string
  {
    if |parts| == 0 then ""
    else if |parts| == 1 then parts[0]
    else parts[0] + sep + Join(parts[1..], sep)
  }

  /** String.prototype.split with a one-character separator: always at least
      one piece, and no piece holds the separator. */
  function Split(s: string, sep: char): (r: seq<string>)
    ensures |r| >= 1
    ensures forall i :: 0 <= i < |r| ==> sep !in r[i]
  {
    if |s| == 0 then [""]
    else
      var rest := Split(s[1..], sep);
      if s[0] == sep then [""] + rest
      else [[s[0]] + rest[0]] + rest[1..]
  }

  /** toUpperCase on the ASCII letters; every other character is kept. */
  function UpperChar(c: char): char
  {
    if 'a' <= c <= 'z' then (c as int - 32) as char else c
  }

  function Upper(s: string): (r: string)
    ensures |r| == |s|
    ensures forall i :: 0 <= i < |r| ==> !('a' <= r[i] <= 'z')
    ensures forall i :: 0 <= i < |r| && !('a' <= s[i] <= 'z') ==> r[i] == s[i]
    ensures forall i :: 0 <= i < |r| && 'a' <= s[i] <= 'z' ==> r[i] == (s[i] as int - 32) as char
  {
    seq(|s|, i requires 0 <= i < |s| => UpperChar(s[i]))
  }

  /** Joining two non-empty lists is joining each and putting one separator
      between them. */
  lemma {:induction false} JoinAppend(a: seq<string>, b: seq<string>, sep: string)
    requires |a| > 0 && |b| > 0
    ensures Join(a + b, sep) == Join(a, sep) + sep + Join(b, sep)
    decreases |a|
  {
    if |a| == 1 {
      assert (a + b)[1..] == b;
    } else {
      assert (a + b)[1..] == a[1..] + b;
      JoinAppend(a[1..], b, sep);
    }
  }

  /** Split is undone by joining with the separator. */
  lemma {:induction false} SplitJoin(s: string, sep: char)
    ensures Join(Split(s, sep), [sep]) == s
    decreases |s|
  {
    if |s| > 0 {
      var rest := Split(s[1..], sep);
      SplitJoin(s[1..], sep);
      if s[0] == sep {
        assert Split(s, sep) == [""] + rest;
        JoinAppend([""], rest, [sep]);
        assert s == [s[0]] + s[1..];
      } else {
        var r := Split(s, sep);
        assert r == [[s[0]] + rest[0]] + rest[1..];
        if |rest| == 1 {
          assert s == [s[0]] + s[1..];
        } else {
          JoinAppend([rest[0]], rest[1..], [sep]);
          JoinAppend([[s[0]] + rest[0]], rest[1..], [sep]);
          assert rest == [rest[0]] + rest[1..];
          assert s == [s[0]] + s[1..];
        }
      }
    }
  }

  /** Joining solid pieces with a separator: the result is empty exactly when
      there are no pieces, and otherwise starts with the first piece's first
      character and ends with the last piece's last character. */
  lemma {:induction false} JoinSolid(parts: seq<string>, sep: string)
    requires AllSolid(parts)
    ensures Join(parts, sep) == "" <==> parts == []
    ensures parts != [] ==> Solid(Join(parts, sep))
    ensures parts != [] ==> Solid(parts[0]) && Join(parts, sep)[0] == parts[0][0]
    decreases |parts|
  {
    if |parts| > 1 {
      JoinSolid(parts[1..], sep);
      var j := Join(parts, sep);
      var tail := Join(parts[1..], sep);
      assert j == parts[0] + sep + tail;
      assert j[|j| - 1] == tail[|tail| - 1];
    }
  }

  /** The last piece of a join is its suffix. */
  lemma JoinEndsWithLast(parts: seq<string>, sep: string)
    requires |parts| > 0
    ensures var j := Join(parts, sep); var last := parts[|parts| - 1];
            |last| <= |j| && j[|j| - |last|..] == last
  {
    if |parts| > 1 {
      var init := parts[..|parts| - 1];
      assert parts == init + [parts[|parts| - 1]];
      JoinAppend(init, [parts[|parts| - 1]], sep);
    }
  }

  /** `s.split('\n').filter(x => x.trim())`: the lines that are not blank, in
      order and untrimmed. */
  function NonBlankLines(s: string): seq<string>
  {
    Filter(NonBlank, Split(s, '\n'))
  }

  /** The kept lines are exactly the non-blank lines of the text, in order;
      none holds a line break. */
  lemma NonBlankLinesShape(s: string)
    ensures var lines := Split(s, '\n'); var kept := NonBlankLines(s);
            (forall i :: 0 <= i < |kept| ==> NonBlank(kept[i]) && '\n' !in kept[i] && kept[i] in lines)
            && (forall i :: 0 <= i < |lines| && NonBlank(lines[i]) ==> lines[i] in kept)
            && SelectedInOrder(kept, lines, Positions(NonBlank, lines), NonBlank)
  {
    FilterMembers(NonBlank, Split(s, '\n'));
    FilterInOrder(NonBlank, Split(s, '\n'));
  }

  /** A join starts with its first piece. */
  lemma JoinStartsWithFirst(parts: seq<string>, sep: string)
    requires |parts| > 0
    ensures var j := Join(parts, sep); |parts[0]| <= |j| && j[..|parts[0]|] == parts[0]
  {
  }
}
