/** String building blocks the renderers share: Go's `strings.Join`, its
    inverse on one separator character, and the decimal text that `%d`
    produces for an `int`. */
module Text {

  import opened Common

  /** `strings.Join(parts, sep)`: the parts with `sep` between neighbours;
      no parts give the empty string. */
  function Join(parts: seq<string>, sep: string): string
  {
    if |parts| == 0 then ""
    else if |parts| == 1 then parts[0]
    else parts[0] + sep + Join(parts[1..], sep)
  }

  /** Joining two non-empty lists puts one separator between their joins. */
  lemma {:induction false} JoinAppend(a: seq<string>, b: seq<string>, sep: string)
    requires |a| > 0 && |b| > 0
    ensures Join(a + b, sep) == Join(a, sep) + sep + Join(b, sep)
  {
    if |a| == 1 {
      assert (a + b)[1..] == b;
    } else {
      assert (a + b)[1..] == a[1..] + b;
      JoinAppend(a[1..], b, sep);
    }
  }

  /** A character in neither the parts nor the separator is not in the
      join. */
  lemma {:induction false} JoinHasNo(parts: seq<string>, sep: string, c: char)
    requires c !in sep
    requires forall k :: 0 <= k < |parts| ==> c !in parts[k]
    ensures c !in Join(parts, sep)
  {
    if |parts| > 1 {
      JoinHasNo(parts[1..], sep, c);
    }
  }

  /** A character of one of the parts is in the join. */
  lemma {:induction false} JoinKeeps(parts: seq<string>, sep: string, i: nat, c: char)
    requires i < |parts| && c in parts[i]
    ensures c in Join(parts, sep)
  {
    if |parts| > 1 {
      if i == 0 {
        assert Join(parts, sep) == parts[0] + (sep + Join(parts[1..], sep));
      } else {
        JoinKeeps(parts[1..], sep, i - 1, c);
        assert Join(parts, sep) == parts[0] + sep + Join(parts[1..], sep);
      }
    }
  }

  /** The pieces of `s` between occurrences of `c` (Go's `strings.Split`
      with a one-character separator), read one character at a time: a
      separator opens a new piece, any other character extends the last. */
  function Split(s: string, c: char): (r: seq<string>)
    ensures |r| > 0
    decreases |s|
  {
    if |s| == 0 then [""]
    else
      var r := Split(s[..|s| - 1], c);
      var x := s[|s| - 1];
      if x == c then r + [""] else r[..|r| - 1] + [r[|r| - 1] + [x]]
  }

  /** The lines of a text: the pieces between newline characters. */
  function Lines(s: string): (r: seq<string>)
    ensures |r| > 0
  {
    Split(s, '\n')
  }

  /** No piece holds the separator. */
  lemma {:induction false} SplitPiecesHaveNo(s: string, c: char)
    ensures var r := Split(s, c);
      forall k :: 0 <= k < |r| ==> c !in r[k]
    decreases |s|
  {
    if |s| > 0 {
      var init, x := s[..|s| - 1], s[|s| - 1];
      var r := Split(init, c);
      SplitPiecesHaveNo(init, c);
      SplitSnoc(init, x, c);
      assert init + [x] == s;
      if x != c {
        var l := r[|r| - 1];
        assert c !in l + [x];
      }
    }
  }

  /** A text without the separator is one piece. */
  lemma {:induction false} SplitSingle(s: string, c: char)
    requires c !in s
    ensures Split(s, c) == [s]
    decreases |s|
  {
    if |s| > 0 {
      var init := s[..|s| - 1];
      assert c !in init by { assert forall i :: 0 <= i < |init| ==> init[i] == s[i]; }
      SplitSingle(init, c);
      assert init + [s[|s| - 1]] == s;
    }
  }

  /** Splitting at a separator that was put between two texts splits the
      two texts separately. */
  lemma {:induction false} SplitAppend(a: string, b: string, c: char)
    ensures Split(a + [c] + b, c) == Split(a, c) + Split(b, c)
    decreases |b|
  {
    if |b| == 0 {
      SplitSnoc(a, c, c);
      assert a + [c] + b == a + [c];
    } else {
      var b', x := b[..|b| - 1], b[|b| - 1];
      var t := a + [c] + b';
      SplitAppend(a, b', c);
      assert b == b' + [x];
      Associative(a + [c], b', [x]);
      assert a + [c] + b == t + [x];
      var sa, sb := Split(a, c), Split(b', c);
      var r := Split(t, c);
      assert r == sa + sb;
      SplitSnoc(t, x, c);
      SplitSnoc(b', x, c);
      if x != c {
        ExtendLast(sa, sb, x);
        assert Split(t + [x], c) == r[..|r| - 1] + [r[|r| - 1] + [x]];
      } else {
        Associative(sa, sb, [""]);
        assert Split(t + [x], c) == r + [""];
      }
    }
  }

  /** One more character: a new piece, or a longer last piece. */
  lemma {:induction false} SplitSnoc(t: string, x: char, c: char)
    ensures var r := Split(t, c);
      Split(t + [x], c) == if x == c then r + [""] else r[..|r| - 1] + [r[|r| - 1] + [x]]
  {
    assert (t + [x])[..|t|] == t;
  }

  lemma {:induction false} ExtendLast(sa: seq<string>, sb: seq<string>, x: char)
    requires |sb| > 0
    ensures var r := sa + sb;
      r[..|r| - 1] + [r[|r| - 1] + [x]] == sa + (sb[..|sb| - 1] + [sb[|sb| - 1] + [x]])
  {
  }

  /** Joining the pieces with the separator gives the text back. */
  lemma {:induction false} SplitJoinsBack(s: string, c: char)
    ensures Join(Split(s, c), [c]) == s
    decreases |s|
  {
    if |s| > 0 {
      var init, x := s[..|s| - 1], s[|s| - 1];
      var r := Split(init, c);
      SplitJoinsBack(init, c);
      assert init + [x] == s;
      if x == c {
        if |r| == 1 {
          assert (r + [""])[1..] == [""];
        } else {
          JoinAppend(r, [""], [c]);
        }
      } else {
        var l := r[|r| - 1];
        if |r| == 1 {
          assert r == [l];
        } else {
          var front := r[..|r| - 1];
          assert r == front + [l];
          JoinAppend(front, [l], [c]);
          JoinAppend(front, [l + [x]], [c]);
        }
      }
    }
  }

  /** Splitting recovers the parts of a join exactly when no part holds
      the separator (this direction: when none does). */
  lemma {:induction false} SplitJoin(parts: seq<string>, c: char)
    requires |parts| > 0
    requires forall k :: 0 <= k < |parts| ==> c !in parts[k]
    ensures Split(Join(parts, [c]), c) == parts
  {
    SplitSingle(parts[0], c);
    if |parts| > 1 {
      var rest := parts[1..];
      SplitJoin(rest, c);
      SplitAppend(parts[0], Join(rest, [c]), c);
      assert parts == [parts[0]] + rest;
    }
  }

  /** The first lines of `Join(parts) + c + tail` are the parts, whatever
      the tail holds. */
  lemma {:induction false} SplitJoinPrefix(parts: seq<string>, c: char, tail: string)
    requires |parts| > 0
    requires forall k :: 0 <= k < |parts| ==> c !in parts[k]
    ensures var r := Split(Join(parts, [c]) + [c] + tail, c);
      |r| > |parts| && r[..|parts|] == parts
  {
    SplitAppend(Join(parts, [c]), tail, c);
    SplitJoin(parts, c);
  }

  /** Each line followed by a newline, as a loop of
      `WriteString(line + "\n")` produces it. */
  function Terminated(lines: seq<string>): string
  {
    if |lines| == 0 then ""
    else Terminated(lines[..|lines| - 1]) + lines[|lines| - 1] + "\n"
  }

  lemma {:induction false} TerminatedSnoc(lines: seq<string>, x: string)
    ensures Terminated(lines + [x]) == Terminated(lines) + x + "\n"
  {
    assert (lines + [x])[..|lines|] == lines;
  }

  lemma {:induction false} TerminatedAppend(a: seq<string>, b: seq<string>)
    ensures Terminated(a + b) == Terminated(a) + Terminated(b)
    decreases |b|
  {
    if |b| > 0 {
      var b' := b[..|b| - 1];
      assert (a + b)[..|a + b| - 1] == a + b';
      TerminatedAppend(a, b');
    } else {
      assert a + b == a;
    }
  }

  /** Newline-terminated lines followed by a tail are the lines and the
      tail joined by newlines. */
  lemma {:induction false} TerminatedJoin(lines: seq<string>, tail: string)
    ensures Terminated(lines) + tail == Join(lines + [tail], "\n")
    decreases |lines|
  {
    if |lines| > 0 {
      var init, x := lines[..|lines| - 1], lines[|lines| - 1];
      assert lines + [tail] == init + [x, tail];
      if |init| == 0 {
        assert [x, tail][1..] == [tail];
      } else {
        TerminatedJoin(init, x);
        JoinAppend(init, [x, tail], "\n");
        JoinAppend(init, [x], "\n");
        assert [x, tail][1..] == [tail];
      }
    }
  }

  /** Read back, newline-terminated single lines give the lines and one
      empty remainder. */
  lemma {:induction false} TerminatedLines(lines: seq<string>)
    requires forall k :: 0 <= k < |lines| ==> '\n' !in lines[k]
    ensures Lines(Terminated(lines)) == lines + [""]
  {
    var t, ps := Terminated(lines), lines + [""];
    TerminatedJoin(lines, "");
    assert t + "" == t;
    NoneHasSnoc(lines, "", '\n');
    SplitJoin(ps, '\n');
  }

  lemma {:induction false} NoneHasSnoc(parts: seq<string>, x: string, c: char)
    requires forall k :: 0 <= k < |parts| ==> c !in parts[k]
    requires c !in x
    ensures forall k :: 0 <= k < |parts + [x]| ==> c !in (parts + [x])[k]
  {
  }

  // ---------------------------------------------------------------------
  // Decimal text of an integer (`%d` in Go's fmt)

  predicate IsDigit(ch: char) { '0' <= ch <= '9' }

  function DigitChar(d: nat): (ch: char)
    requires d < 10
    ensures IsDigit(ch)
  {
    (48 + d) as char
  }

  function DigitValue(ch: char): (d: nat)
    requires IsDigit(ch)
    ensures d < 10
  {
    ch as int - 48
  }

  /** Decimal digits of a natural number, most significant first, no
      leading zeros. */
  function NatDecimal(n: nat): (r: string)
    ensures |r| > 0
    ensures forall k :: 0 <= k < |r| ==> IsDigit(r[k])
  {
    if n < 10 then [DigitChar(n)] else NatDecimal(n / 10) + [DigitChar(n % 10)]
  }

  /** What `%d` prints for an `int`: a minus sign before the digits of a
      negative number. */
  function Decimal(n: int): (r: string)
    ensures |r| > 0
    ensures '\n' !in r && '\t' !in r
  {
    var r := if n < 0 then "-" + NatDecimal(-n) else NatDecimal(n);
    assert forall k :: 0 <= k < |r| ==> r[k] == '-' || IsDigit(r[k]);
    r
  }

  predicate AllDigits(s: string)
  {
    forall k :: 0 <= k < |s| ==> IsDigit(s[k])
  }

  function ParseNat(s: string): nat
    requires AllDigits(s)
  {
    if |s| == 0 then 0 else ParseNat(s[..|s| - 1]) * 10 + DigitValue(s[|s| - 1])
  }

  /** Reads back the text `Decimal` produces. */
  function ParseDecimal(s: string): int
    requires (|s| > 0 && s[0] == '-' && AllDigits(s[1..])) || AllDigits(s)
  {
    if |s| > 0 && s[0] == '-' then -(ParseNat(s[1..]) as int) else ParseNat(s)
  }

  lemma {:induction false} NatDecimalRoundTrip(n: nat)
    ensures ParseNat(NatDecimal(n)) == n
  {
    if n >= 10 {
      var s := NatDecimal(n);
      assert s[..|s| - 1] == NatDecimal(n / 10);
      NatDecimalRoundTrip(n / 10);
    }
  }

  /** `Decimal` loses nothing: its text reads back as the number. */
  lemma {:induction false} DecimalRoundTrip(n: int)
    ensures var s := Decimal(n);
      ((|s| > 0 && s[0] == '-' && AllDigits(s[1..])) || AllDigits(s)) && ParseDecimal(s) == n
  {
    if n < 0 {
      NatDecimalRoundTrip(-n);
      assert Decimal(n)[1..] == NatDecimal(-n);
    } else {
      NatDecimalRoundTrip(n);
    }
  }
}
