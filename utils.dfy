/** `trim_empty(content, max_lines)`, identical in both packages. Its pattern
    `f"\n{max_lines,}"` formats the tuple `(max_lines,)`, so the regular expression
    is a newline followed by the group `(N,)`: it matches only the literal text
    newline, the digits of N, a comma. `TrimEmpty` is that function as written;
    `TrimEmptyIntended` is the documented intent, collapsing every run of more than
    `max_lines` newlines to `max_lines`. */
module Utils {
  import opened Text

  /** The literal the pattern matches: `"\n" + str(n) + ","`. */
  function Marker(n: nat): (m: string)
    ensures |m| >= 3 && m[0] == '\n' && m[|m| - 1] == ','
  {
    "\n" + NatToString(n) + ","
  }

  /** `trim_empty` as written. */
  function TrimEmpty(content: string, maxLines: int): string {
    if maxLines >= 1 then Strip(ReplaceAll(content, Marker(maxLines), Newlines(maxLines))) else content
  }

  /** Below 1 the content is returned unchanged; otherwise the result has no
      whitespace at either end, and text without the literal comes back exactly
      stripped. */
  lemma TrimEmptyMeaning(content: string, maxLines: int)
    ensures maxLines < 1 ==> TrimEmpty(content, maxLines) == content
    ensures maxLines >= 1 ==>
      var r := TrimEmpty(content, maxLines);
      |r| > 0 ==> !IsSpace(r[0]) && !IsSpace(r[|r| - 1])
    ensures maxLines >= 1 && !Occurs(Marker(maxLines), content) ==> TrimEmpty(content, maxLines) == Strip(content)
  {
    if maxLines >= 1 {
      var replaced := ReplaceAll(content, Marker(maxLines), Newlines(maxLines));
      assert TrimEmpty(content, maxLines) == Strip(replaced);
      StripShape(replaced);
      if !Occurs(Marker(maxLines), content) {
        ReplaceAbsent(content, Marker(maxLines), Newlines(maxLines));
      }
    }
  }

  /** The first literal is replaced by `max_lines` newlines and the text before it
      is kept. */
  lemma TrimEmptyReplacesMarker(before: string, after: string, maxLines: int)
    requires maxLines >= 1 && !Occurs(Marker(maxLines), before + Marker(maxLines)[..|Marker(maxLines)| - 1])
    ensures TrimEmpty(before + Marker(maxLines) + after, maxLines) ==
      Strip(before + Newlines(maxLines) + ReplaceAll(after, Marker(maxLines), Newlines(maxLines)))
  {
    ReplaceFirst(before, Marker(maxLines), after, Newlines(maxLines));
  }

  // ---------------------------------------------------------------- the intent

  /** Copies `s`, dropping each newline that would make the current run of newlines
      longer than `n`; `run` is the length of the run the output ends with. */
  function Collapse(s: string, n: nat, run: nat): string
    decreases |s|
  {
    if |s| == 0 then ""
    else if s[0] == '\n' then
      if run < n then "\n" + Collapse(s[1..], n, run + 1) else Collapse(s[1..], n, run)
    else [s[0]] + Collapse(s[1..], n, 0)
  }

  /** No run of newlines in `t` is longer than `n`, when `t` follows a run of `run`. */
  predicate RunsAtMost(t: string, n: nat, run: nat)
    decreases |t|
  {
    if |t| == 0 then run <= n
    else if t[0] == '\n' then run + 1 <= n && RunsAtMost(t[1..], n, run + 1)
    else run <= n && RunsAtMost(t[1..], n, 0)
  }

  lemma {:induction false} CollapseBounded(s: string, n: nat, run: nat)
    requires run <= n
    ensures RunsAtMost(Collapse(s, n, run), n, run)
    decreases |s|
  {
    if |s| > 0 {
      var c := Collapse(s, n, run);
      if s[0] == '\n' {
        if run < n {
          CollapseBounded(s[1..], n, run + 1);
          assert c[1..] == Collapse(s[1..], n, run + 1);
        } else {
          CollapseBounded(s[1..], n, run);
        }
      } else {
        CollapseBounded(s[1..], n, 0);
        assert c[1..] == Collapse(s[1..], n, 0);
      }
    }
  }

  /** Text whose runs are already short enough is left alone. */
  lemma {:induction false} CollapseKeeps(s: string, n: nat, run: nat)
    requires RunsAtMost(s, n, run)
    ensures Collapse(s, n, run) == s
    decreases |s|
  {
    if |s| > 0 {
      if s[0] == '\n' {
        CollapseKeeps(s[1..], n, run + 1);
      } else {
        CollapseKeeps(s[1..], n, 0);
      }
      assert s == [s[0]] + s[1..];
    }
  }

  /** A character other than a newline after a short run, followed by text without a
      long run, leaves no long run. */
  lemma BrokenRun(t: string, n: nat, run: nat)
    requires |t| > 0 && t[0] != '\n' && run <= n && !Occurs(Newlines(n + 1), t[1..])
    ensures !Occurs(Newlines(n + 1), Newlines(run) + t)
  {
    var p := Newlines(n + 1);
    var w := Newlines(run) + t;
    assert w[run] == t[0];
    forall i | 0 <= i <= |w| - |p| ensures !OccursAt(p, w, i) {
      if i <= run {
        assert w[i..i + |p|][run - i] == w[run] == t[0];
        assert p[run - i] == '\n';
      } else {
        var j := i - run - 1;
        var window, shifted := w[i..i + |p|], t[1..][j..j + |p|];
        forall k | 0 <= k < |p| ensures window[k] == shifted[k] {
          assert window[k] == w[i + k] == t[i + k - run];
        }
        assert window == shifted;
        assert !OccursAt(p, t[1..], j);
      }
    }
  }

  /** The scan's bound means what it says: `n + 1` newlines in a row occur nowhere in
      the text, counting the run it follows. */
  lemma {:induction false} RunsAtMostNoLongRun(t: string, n: nat, run: nat)
    requires RunsAtMost(t, n, run)
    ensures !Occurs(Newlines(n + 1), Newlines(run) + t)
    decreases |t|
  {
    if |t| == 0 {
      assert Newlines(run) + t == Newlines(run);
    } else if t[0] == '\n' {
      RunsAtMostNoLongRun(t[1..], n, run + 1);
      assert Newlines(run + 1) == Newlines(run) + "\n";
      assert t == "\n" + t[1..];
      assert Newlines(run + 1) + t[1..] == Newlines(run) + t;
    } else {
      RunsAtMostNoLongRun(t[1..], n, 0);
      assert Newlines(0) + t[1..] == t[1..];
      BrokenRun(t, n, run);
    }
  }

  /** An occurrence inside a slice is an occurrence in the whole string. */
  lemma OccursInSlice(p: string, s: string, k: nat, e: nat)
    requires k <= e <= |s| && Occurs(p, s[k..e])
    ensures Occurs(p, s)
  {
    var r := s[k..e];
    var i :| 0 <= i <= |r| - |p| && OccursAt(p, r, i);
    forall j | 0 <= j < |p| ensures s[k + i..k + i + |p|][j] == p[j] {
      assert r[i..i + |p|][j] == p[j];
    }
    assert OccursAt(p, s, k + i);
  }

  /** `re.sub(f"\n{{{max_lines},}}", "\n" * max_lines, content).strip()`. */
  function TrimEmptyIntended(content: string, maxLines: int): string {
    if maxLines >= 1 then Strip(Collapse(content, maxLines, 0)) else content
  }

  /** The intended function leaves no run of more than `max_lines` newlines, has no
      whitespace at either end, and does nothing more to stripped text that has no
      such run. */
  lemma TrimEmptyIntendedMeaning(content: string, maxLines: int)
    ensures maxLines < 1 ==> TrimEmptyIntended(content, maxLines) == content
    ensures maxLines >= 1 ==>
      var r := TrimEmptyIntended(content, maxLines);
      && !Occurs(Newlines(maxLines + 1), r)
      && (|r| > 0 ==> !IsSpace(r[0]) && !IsSpace(r[|r| - 1]))
    ensures maxLines >= 1 && RunsAtMost(content, maxLines, 0) && (|content| > 0 ==> !IsSpace(content[0]) && !IsSpace(content[|content| - 1])) ==>
      TrimEmptyIntended(content, maxLines) == content
  {
    if maxLines >= 1 {
      IntendedNoLongRun(content, maxLines);
      StripShape(Collapse(content, maxLines, 0));
      IntendedKeepsTrimmed(content, maxLines);
    }
  }

  /** After collapsing and stripping, no run longer than `maxLines` is left. */
  lemma IntendedNoLongRun(content: string, maxLines: nat)
    requires maxLines >= 1
    ensures !Occurs(Newlines(maxLines + 1), Strip(Collapse(content, maxLines, 0)))
  {
    var c := Collapse(content, maxLines, 0);
    CollapseBounded(content, maxLines, 0);
    RunsAtMostNoLongRun(c, maxLines, 0);
    assert Newlines(0) + c == c;
    if Occurs(Newlines(maxLines + 1), Strip(c)) {
      OccursInSlice(Newlines(maxLines + 1), c, StripStart(c), StripEnd(c));
    }
  }

  /** Stripped text with no long run comes back unchanged. */
  lemma IntendedKeepsTrimmed(content: string, maxLines: nat)
    requires maxLines >= 1
    ensures RunsAtMost(content, maxLines, 0) && (|content| > 0 ==> !IsSpace(content[0]) && !IsSpace(content[|content| - 1])) ==>
      Strip(Collapse(content, maxLines, 0)) == content
  {
    if RunsAtMost(content, maxLines, 0) {
      CollapseKeeps(content, maxLines, 0);
      if |content| > 0 ==> !IsSpace(content[0]) && !IsSpace(content[|content| - 1]) {
        StripUnchanged(content);
      }
    }
  }

  lemma MarkerOfTwo()
    ensures Marker(2) == "\n2,"
  {
    assert NatToString(2) == "2";
  }

  /** Three newlines between two other characters. */
  function ThreeNewlines(a: char, b: char): string {
    [a, '\n', '\n', '\n', b]
  }

  lemma ThreeNewlinesHasNoMarker(a: char, b: char)
    ensures !Occurs(Marker(2), ThreeNewlines(a, b))
  {
    MarkerOfTwo();
    var s := ThreeNewlines(a, b);
    forall i | 0 <= i <= |s| - 3 ensures !OccursAt("\n2,", s, i) {
      assert s[i..i + 3][1] == s[i + 1] == '\n';
      assert "\n2,"[1] == '2';
    }
  }

  lemma CollapseThreeNewlines(a: char, b: char)
    requires a != '\n' && b != '\n'
    ensures Collapse(ThreeNewlines(a, b), 2, 0) == [a, '\n', '\n', b]
  {
    var s := ThreeNewlines(a, b);
    assert s[1..][1..][1..][1..] == [b];
    assert Collapse([b], 2, 2) == [b] by { assert [b][1..] == []; }
    assert s[1..][1..][1..] == ['\n', b];
    assert Collapse(['\n', b], 2, 2) == [b] by { assert ['\n', b][1..] == [b]; }
    assert s[1..][1..] == ['\n', '\n', b];
    assert Collapse(['\n', '\n', b], 2, 1) == ['\n', b] by { assert ['\n', '\n', b][1..] == ['\n', b]; }
    assert s[1..] == ['\n', '\n', '\n', b];
    assert Collapse(['\n', '\n', '\n', b], 2, 0) == ['\n', '\n', b] by {
      assert ['\n', '\n', '\n', b][1..] == ['\n', '\n', b];
    }
    assert [a] + ['\n', '\n', b] == [a, '\n', '\n', b];
  }

  /** The two differ on three newlines in a row with the default `max_lines = 2`: as
      written nothing is collapsed (any two visible characters around the run), as
      intended the run becomes two newlines. */
  lemma TrimEmptyMissesRuns(a: char, b: char)
    requires !IsSpace(a) && !IsSpace(b)
    ensures TrimEmpty(ThreeNewlines(a, b), 2) == ThreeNewlines(a, b)
    ensures Occurs(Newlines(3), TrimEmpty(ThreeNewlines(a, b), 2))
    ensures TrimEmptyIntended(ThreeNewlines(a, b), 2) == [a, '\n', '\n', b]
  {
    var s := ThreeNewlines(a, b);
    ThreeNewlinesHasNoMarker(a, b);
    TrimEmptyMeaning(s, 2);
    StripUnchanged(s);
    assert s[1..4] == Newlines(3);
    assert OccursAt(Newlines(3), s, 1);
    CollapseThreeNewlines(a, b);
    StripUnchanged([a, '\n', '\n', b]);
  }

  /** The marker between two single characters is replaced by two newlines. */
  lemma MarkerReplacedBetween(x: char, y: char)
    ensures ReplaceAll([x] + Marker(2) + [y], Marker(2), Newlines(2)) == [x] + Newlines(2) + [y]
  {
    MarkerOfTwo();
    var m := Marker(2);
    var w := [x] + m[..2];
    assert !Occurs(m, w) by {
      assert |w| == 3;
      assert !OccursAt(m, w, 0);
    }
    ReplaceFirst([x], m, [y], Newlines(2));
    ReplaceAbsent([y], m, Newlines(2));
  }

  /** As written, the literal text newline-digit-comma is what gets replaced. */
  lemma TrimEmptyReplacesLiteral(x: char, y: char)
    requires !IsSpace(x) && !IsSpace(y)
    ensures TrimEmpty([x, '\n', '2', ',', y], 2) == [x, '\n', '\n', y]
  {
    MarkerOfTwo();
    var m := Marker(2);
    var s := [x] + m + [y];
    assert s == [x, '\n', '2', ',', y];
    MarkerReplacedBetween(x, y);
    var t := [x] + Newlines(2) + [y];
    assert t == [x, '\n', '\n', y];
    StripUnchanged(t);
    assert TrimEmpty(s, 2) == Strip(ReplaceAll(s, m, Newlines(2)));
  }
}
