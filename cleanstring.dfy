/**
 * `cleanstring` (infoset/utils/jm_general.py): line feeds become spaces,
 * carriage returns are deleted, and the whitespace-separated words are
 * joined with single spaces.
 */
module CleanString {
  import opened Strings

  /** `data.replace('\n', ' ').replace('\r', '')`. */
  function Prepared(s: string): (r: string)
    ensures forall i :: 0 <= i < |r| ==> r[i] != '\n' && r[i] != '\r'
    decreases |s|
  {
    if |s| == 0 then ""
    else (if s[0] == '\n' then " " else if s[0] == '\r' then "" else [s[0]]) + Prepared(s[1..])
  }

  /** A word of `str.split()`: a non-empty run of non-whitespace characters. */
  predicate IsWord(w: string) {
    |w| > 0 && forall i :: 0 <= i < |w| ==> !IsSpace(w[i])
  }

  /** The length of the run of non-whitespace characters `s` starts with. */
  function WordLength(s: string): (n: nat)
    ensures n <= |s|
    ensures forall i :: 0 <= i < n ==> !IsSpace(s[i])
    ensures n < |s| ==> IsSpace(s[n])
    decreases |s|
  {
    if |s| == 0 || IsSpace(s[0]) then 0 else 1 + WordLength(s[1..])
  }

  /** `s.split()` with no argument: the maximal runs of non-whitespace characters, in order. */
  function Words(s: string): (ws: seq<string>)
    ensures forall k :: 0 <= k < |ws| ==> IsWord(ws[k])
    decreases |s|
  {
    if |s| == 0 then []
    else if IsSpace(s[0]) then Words(s[1..])
    else
      var n := WordLength(s);
      [s[..n]] + Words(s[n..])
  }

  /** `' '.join(nolinefeeds.split())` with `nolinefeeds` the stripped, prepared input. */
  function Clean(data: string): string {
    Join(Words(Strip(Prepared(data))), ' ')
  }

  /** The form of every result: no whitespace but single inner spaces. */
  predicate Tidy(r: string) {
    && (forall i :: 0 <= i < |r| ==> r[i] == ' ' || !IsSpace(r[i]))
    && (|r| > 0 ==> r[0] != ' ' && r[|r| - 1] != ' ')
    && (forall i :: 0 <= i < |r| - 1 ==> r[i] != ' ' || r[i + 1] != ' ')
  }

  // ---------------------------------------------------------------------
  // Words and joins.
  // ---------------------------------------------------------------------

  lemma WordLengthIs(s: string, n: nat)
    requires n <= |s|
    requires forall i :: 0 <= i < n ==> !IsSpace(s[i])
    requires n < |s| ==> IsSpace(s[n])
    ensures WordLength(s) == n
  {
  }

  /** A word followed by a space and more text splits into that word and the words of the rest. */
  lemma WordsAfterWord(w: string, x: string)
    requires IsWord(w)
    ensures Words(w + [' '] + x) == [w] + Words(x)
  {
    var s := w + [' '] + x;
    WordLengthIs(s, |w|);
    assert s[..|w|] == w;
    assert s[|w|..] == [' '] + x;
    assert ([' '] + x)[1..] == x;
  }

  lemma WordsOfWord(w: string)
    requires IsWord(w)
    ensures Words(w) == [w]
  {
    WordLengthIs(w, |w|);
    assert w[..|w|] == w;
  }

  /** Splitting a join of words gives the words back. */
  lemma {:induction false} WordsOfJoin(ws: seq<string>)
    requires forall k :: 0 <= k < |ws| ==> IsWord(ws[k])
    ensures Words(Join(ws, ' ')) == ws
    decreases |ws|
  {
    if |ws| == 1 {
      WordsOfWord(ws[0]);
    } else if |ws| > 1 {
      WordsOfJoin(ws[1..]);
      WordsAfterWord(ws[0], Join(ws[1..], ' '));
      assert ws == [ws[0]] + ws[1..];
    }
  }

  /** Every join of words is tidy, and it is empty only for no words. */
  lemma {:induction false} JoinTidy(ws: seq<string>)
    requires forall k :: 0 <= k < |ws| ==> IsWord(ws[k])
    ensures Tidy(Join(ws, ' '))
    ensures Join(ws, ' ') == "" <==> ws == []
    decreases |ws|
  {
    if |ws| == 1 {
    } else if |ws| > 1 {
      JoinTidy(ws[1..]);
      var w, rest := ws[0], Join(ws[1..], ' ');
      var r := Join(ws, ' ');
      assert r == w + [' '] + rest;
      forall i | 0 <= i < |r| ensures r[i] == ' ' || !IsSpace(r[i]) {
        if i < |w| {
          assert r[i] == w[i];
        } else if i > |w| {
          assert r[i] == rest[i - |w| - 1];
        }
      }
      forall i | 0 <= i < |r| - 1 ensures r[i] != ' ' || r[i + 1] != ' ' {
        if i < |w| {
          assert r[i] == w[i];
        } else {
          assert r[i + 1] == rest[i - |w|];
        }
      }
      assert r[|r| - 1] == rest[|rest| - 1];
    }
  }

  /** A trailing whitespace character adds no word. */
  lemma {:induction false} WordsTrailingSpace(x: string, c: char)
    requires IsSpace(c)
    ensures Words(x + [c]) == Words(x)
    decreases |x|
  {
    var s := x + [c];
    if |x| == 0 {
      assert s[1..] == [];
    } else if IsSpace(x[0]) {
      assert s[1..] == x[1..] + [c];
      WordsTrailingSpace(x[1..], c);
    } else {
      var n := WordLength(x);
      WordLengthIs(s, n);
      assert s[..n] == x[..n];
      assert s[n..] == x[n..] + [c];
      WordsTrailingSpace(x[n..], c);
    }
  }

  lemma {:induction false} WordsTrimLeft(s: string)
    ensures Words(TrimLeft(s)) == Words(s)
    decreases |s|
  {
    if |s| > 0 && IsSpace(s[0]) {
      WordsTrimLeft(s[1..]);
    }
  }

  lemma {:induction false} WordsTrimRight(s: string)
    ensures Words(TrimRight(s)) == Words(s)
    decreases |s|
  {
    if |s| > 0 && IsSpace(s[|s| - 1]) {
      var init, c := s[..|s| - 1], s[|s| - 1];
      assert TrimRight(s) == TrimRight(init);
      WordsTrimRight(init);
      WordsTrailingSpace(init, c);
      assert init + [c] == s;
    }
  }

  /** `strip()` before `split()` changes nothing. */
  lemma WordsStrip(s: string)
    ensures Words(Strip(s)) == Words(s)
  {
    WordsTrimLeft(s);
    WordsTrimRight(TrimLeft(s));
  }

  predicate AllSpace(s: string) {
    forall i :: 0 <= i < |s| ==> IsSpace(s[i])
  }

  lemma AllSpaceConcat(a: string, b: string)
    ensures AllSpace(a + b) <==> AllSpace(a) && AllSpace(b)
  {
    if AllSpace(a) && AllSpace(b) {
      forall i | 0 <= i < |a + b| ensures IsSpace((a + b)[i]) {
        if i >= |a| {
          assert (a + b)[i] == b[i - |a|];
        }
      }
    }
    if AllSpace(a + b) {
      assert forall i :: 0 <= i < |a| ==> a[i] == (a + b)[i];
      assert forall i :: 0 <= i < |b| ==> b[i] == (a + b)[|a| + i];
    }
  }

  /** A string has no words exactly when it is all whitespace. */
  lemma {:induction false} WordsNone(s: string)
    ensures Words(s) == [] <==> AllSpace(s)
    decreases |s|
  {
    if |s| > 0 && IsSpace(s[0]) {
      WordsNone(s[1..]);
      AllSpaceConcat([s[0]], s[1..]);
      assert s == [s[0]] + s[1..];
    }
  }

  /** The preparation keeps or deletes whitespace and keeps every other character. */
  lemma {:induction false} PreparedSpaces(s: string)
    ensures AllSpace(Prepared(s)) <==> AllSpace(s)
    decreases |s|
  {
    if |s| > 0 {
      PreparedSpaces(s[1..]);
      var head := if s[0] == '\n' then " " else if s[0] == '\r' then "" else [s[0]];
      assert Prepared(s) == head + Prepared(s[1..]);
      AllSpaceConcat(head, Prepared(s[1..]));
      AllSpaceConcat([s[0]], s[1..]);
      assert s == [s[0]] + s[1..];
    }
  }

  /** Text without line feeds or carriage returns is left as it is by the preparation. */
  lemma {:induction false} PreparedPlain(s: string)
    requires forall i :: 0 <= i < |s| ==> s[i] != '\n' && s[i] != '\r'
    ensures Prepared(s) == s
    decreases |s|
  {
    if |s| > 0 {
      PreparedPlain(s[1..]);
      assert s == [s[0]] + s[1..];
    }
  }

  /** Text that neither starts nor ends with whitespace is left as it is by `strip()`. */
  lemma StripTrimmed(s: string)
    requires |s| > 0 ==> !IsSpace(s[0]) && !IsSpace(s[|s| - 1])
    ensures Strip(s) == s
  {
    assert TrimLeft(s) == s;
  }

  // ---------------------------------------------------------------------
  // What `cleanstring` promises.
  // ---------------------------------------------------------------------

  /**
   * The result has no line feed or carriage return, no leading or trailing
   * whitespace and never two spaces in a row; its words are the words of the
   * input once carriage returns are deleted and line feeds are spaces.
   */
  lemma CleanFacts(data: string)
    ensures Tidy(Clean(data))
    ensures forall i :: 0 <= i < |Clean(data)| ==> Clean(data)[i] != '\n' && Clean(data)[i] != '\r'
    ensures Words(Clean(data)) == Words(Prepared(data))
  {
    var ws := Words(Strip(Prepared(data)));
    var r := Clean(data);
    assert r == Join(ws, ' ');
    JoinTidy(ws);
    TidyPlain(r);
    WordsOfJoin(ws);
    WordsStrip(Prepared(data));
  }

  /** A tidy string holds no line feed or carriage return, both being whitespace. */
  lemma TidyPlain(r: string)
    requires Tidy(r)
    ensures forall i :: 0 <= i < |r| ==> r[i] != '\n' && r[i] != '\r'
  {
    forall i | 0 <= i < |r| ensures r[i] != '\n' && r[i] != '\r' {
      assert r[i] == ' ' || !IsSpace(r[i]);
    }
  }

  /** Cleaning a cleaned string changes nothing. */
  lemma CleanIdempotent(data: string)
    ensures Clean(Clean(data)) == Clean(data)
  {
    var r := Clean(data);
    CleanFacts(data);
    PreparedPlain(r);
    if |r| > 0 {
      assert r[0] != ' ' && r[|r| - 1] != ' ';
    }
    StripTrimmed(r);
    WordsOfJoin(Words(Strip(Prepared(data))));
  }

  /** The result is empty exactly when the input is empty or all whitespace. */
  lemma CleanEmpty(data: string)
    ensures Clean(data) == "" <==> AllSpace(data)
  {
    var ws := Words(Strip(Prepared(data)));
    JoinTidy(ws);
    WordsStrip(Prepared(data));
    WordsNone(Prepared(data));
    PreparedSpaces(data);
  }

  /** A carriage return between two words is deleted, so they merge. */
  lemma CarriageReturnMerges()
    ensures Clean("ab\rcd") == "abcd"
  {
    assert Prepared("ab\rcd") == "abcd" by {
      assert "ab\rcd"[1..] == "b\rcd";
      assert "b\rcd"[1..] == "\rcd";
      assert "\rcd"[1..] == "cd";
      assert "cd"[1..] == "d";
      assert "d"[1..] == "";
    }
    var w := "abcd";
    assert IsWord(w);
    assert Strip(w) == w by { StripTrimmed(w); }
    WordsOfWord(w);
  }
}
