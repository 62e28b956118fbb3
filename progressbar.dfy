/** The text progress bar of util/progressbar.py: `center_message` and the
    block-count state machine of `ProgressbarText`. Standard output is modelled
    as the text written so far (`out`), so every `write` is an append. */
module Progressbar {

  /** `n` copies of `x`; Python's `x * n`, which is empty when `n <= 0`. */
  function Copies<T>(x: seq<T>, n: int): (r: seq<T>)
    ensures |r| == if n <= 0 then 0 else n * |x|
    decreases if n <= 0 then 0 else n
  {
    if n <= 0 then [] else x + Copies(x, n - 1)
  }

  lemma {:induction false} CopiesOfChar(c: char, n: int)
    ensures forall i :: 0 <= i < |Copies([c], n)| ==> Copies([c], n)[i] == c
    decreases if n <= 0 then 0 else n
  {
    if n > 0 {
      CopiesOfChar(c, n - 1);
    }
  }

  lemma {:induction false} CopiesAdd<T>(x: T, m: int, n: int)
    requires 0 <= m && 0 <= n
    ensures Copies([x], m) + Copies([x], n) == Copies([x], m + n)
    decreases m
  {
    if m > 0 {
      CopiesAdd(x, m - 1, n);
      assert Copies([x], m + n) == [x] + Copies([x], m - 1 + n);
    }
  }

  // ---------------------------------------------------------------------
  // center_message (util/progressbar.py:200-226)
  // ---------------------------------------------------------------------

  /** Room left for the fill characters once the message, its two surrounding
      blanks and the two end marks are placed. */
  function FillSize(message: string, length: int, left: string, right: string): (r: int)
    ensures r + |message| + 2 + |left| + |right| == length
    ensures r >= 0 <==> |left| + |message| + |right| + 2 <= length
  {
    length - (|message| + 2) - |left| - |right|
  }

  /** `message` framed by blanks and `fillChar` runs between `left` and
      `right`; Python's `//` and `%` floor, as Dafny's do for the divisor 2. */
  function CenterMessage(message: string, length: int, fillChar: string, left: string, right: string): (r: string)
    ensures FillSize(message, length, left, right) >= 0 && |fillChar| == 1 ==> |r| == length
    ensures FillSize(message, length, left, right) < 0 ==> r == left + " " + message + " " + right
    ensures |left| + |message| + 2 + |right| <= |r|
    ensures r[..|left|] == left && r[|r| - |right|..] == right
  {
    var fill := FillSize(message, length, left, right);
    var leftFill := fill / 2 + fill % 2;
    var rightFill := fill / 2;
    left + Copies(fillChar, leftFill) + " " + message + " " + Copies(fillChar, rightFill) + right
  }

  /** When there is room, the message is centred: the fill on the left is
      the ceiling of half the room and the fill on the right its floor. */
  lemma CenterMessageCentred(message: string, length: int, fill: char, left: string, right: string)
    requires FillSize(message, length, left, right) >= 0
    ensures var room := FillSize(message, length, left, right);
            var l, r := (room + 1) / 2, room / 2;
            && r <= l <= r + 1
            && l + r == room
            && CenterMessage(message, length, [fill], left, right)
               == left + Copies([fill], l) + " " + message + " " + Copies([fill], r) + right
  {
  }

  /** The example of the function's documentation. */
  lemma CenterMessageExample()
    ensures CenterMessage("Hello Progress", 50, "-", "Left", "Right")
            == "Left------------- Hello Progress ------------Right"
  {
    assert FillSize("Hello Progress", 50, "Left", "Right") == 25;
    DashRuns();
    ExampleText();
  }

  lemma DashRuns()
    ensures Copies("-", 12) == "------------"
    ensures Copies("-", 13) == "-------------"
  {
    CopiesOfChar('-', 12);
    CopiesOfChar('-', 13);
  }

  lemma ExampleText()
    ensures "Left" + "-------------" + " " + "Hello Progress" + " " + "------------" + "Right"
            == "Left------------- Hello Progress ------------Right"
  {
    assert "Left" + "-------------" == "Left-------------";
    assert "Left-------------" + " " == "Left------------- ";
    assert "Left------------- " + "Hello Progress" == "Left------------- Hello Progress";
    assert "Left------------- Hello Progress" + " " == "Left------------- Hello Progress ";
    assert "Left------------- Hello Progress " + "------------" == "Left------------- Hello Progress ------------";
  }

  // ---------------------------------------------------------------------
  // ProgressbarText (util/progressbar.py:28-121)
  // ---------------------------------------------------------------------

  /** Python 2 `/` on integers: the quotient rounded towards minus infinity.
      Dafny's `/` agrees when the divisor is positive. */
  function FloorDiv(a: int, b: int): (q: int)
    requires b != 0
    ensures q * b <= a < q * b + b || q * b + b < a <= q * b
  {
    if b > 0 then a / b else (-a) / (-b)
  }

  /** The percentage `progress` computes for `count` (lines 92-101): the count
      is capped at `finalcount`, a final count of zero means complete, and
      anything that rounds below one percent shows as one percent. */
  function Percent(count: int, finalcount: int): (p: int)
    ensures finalcount == 0 ==> p == 100
    ensures finalcount > 0 ==> 1 <= p <= 100
    ensures finalcount > 0 ==> (p == 100 <==> count >= finalcount)
    ensures p >= 1
  {
    var capped := if count < finalcount then count else finalcount;
    if finalcount != 0 then
      PercentOfCapped(capped, finalcount);
      var p := FloorDiv(100 * capped, finalcount);
      if p < 1 then 1 else p
    else
      100
  }

  /** At most the whole is 100 percent, and exactly 100 only for the whole. */
  lemma PercentOfCapped(capped: int, finalcount: int)
    requires capped <= finalcount
    ensures 0 < finalcount ==> (100 * capped) / finalcount <= 100
    ensures 0 < finalcount ==> ((100 * capped) / finalcount == 100 <==> capped == finalcount)
  {
    if finalcount <= 0 {
      return;
    }
    var q, r := (100 * capped) / finalcount, (100 * capped) % finalcount;
    assert 100 * capped == q * finalcount + r && 0 <= r < finalcount;
    if q > 100 {
      ScaleAtLeast(q, 101, finalcount);
    }
    if capped == finalcount && q < 100 {
      ScaleAtLeast(99, q, finalcount);
    }
  }

  /** Scaling keeps the order of the factors. */
  lemma ScaleAtLeast(x: int, y: int, b: int)
    requires x >= y && b > 0
    ensures x * b >= y * b
  {
    assert x * b == y * b + (x - y) * b;
  }

  function Max(a: int, b: int): (r: int) { if a < b then b else a }

  /** Number of progress characters a bar shows after a call with `count`:
      half the percentage, but never fewer than it already shows. */
  function NextBlockcount(blockcount: int, finalcount: int, count: int): (b: int)
    ensures b >= blockcount
  {
    Max(blockcount, Percent(count, finalcount) / 2)
  }

  /** The text one call to `progress` writes: only the progress characters
      still missing, then a newline when the bar is complete. */
  function StepOutput(blockcount: int, block: char, finalcount: int, count: int): (out: string)
    ensures |out| == NextBlockcount(blockcount, finalcount, count) - blockcount
                     + (if Percent(count, finalcount) == 100 then 1 else 0)
  {
    var target := Percent(count, finalcount) / 2;
    Copies([block], target - blockcount) + (if Percent(count, finalcount) == 100 then "\n" else "")
  }

  /** The three header lines the constructor writes (lines 71-80). */
  function Header(finalcount: int, message: string): (h: string)
    ensures h == [] <==> finalcount == 0
  {
    if finalcount == 0 then ""
    else
      (if |message| != 0 then "\n" + CenterMessage(message, 50, "-", "", "1") + "\n"
       else "\n------------------ % Progress -------------------1\n")
      + "    1    2    3    4    5    6    7    8    9    0\n"
      + "----0----0----0----0----0----0----0----0----0----0\n"
  }

  class ProgressbarText {
    var finalcount: int
    var blockcount: int
    var block: char
    /** Everything written to standard output so far. */
    var out: string

    /** The bar never shows a negative number of characters, and while the
        final count is not negative it never shows more than its 50. */
    ghost predicate Valid()
      reads this
    {
      0 <= blockcount && (finalcount >= 0 ==> blockcount <= 50)
    }

    constructor (finalcount: int, progresschar: char, message: string)
      ensures Valid()
      ensures this.finalcount == finalcount && blockcount == 0 && block == progresschar
      ensures out == Header(finalcount, message)
    {
      this.finalcount := finalcount;
      blockcount := 0;
      block := progresschar;
      out := Header(finalcount, message);
    }

    method Progress(count: int)
      requires Valid()
      modifies this
      ensures Valid()
      ensures finalcount == old(finalcount) && block == old(block)
      ensures blockcount == NextBlockcount(old(blockcount), finalcount, count)
      ensures out == old(out) + StepOutput(old(blockcount), block, finalcount, count)
    {
      var capped := if count < finalcount then count else finalcount;
      var percent;
      if finalcount != 0 {
        percent := FloorDiv(100 * capped, finalcount);
        if percent < 1 {
          percent := 1;
        }
      } else {
        percent := 100;
      }
      assert percent == Percent(count, finalcount);
      var target := percent / 2;
      if target > blockcount {
        for i := blockcount to target
          invariant blockcount == old(blockcount) && block == old(block) && finalcount == old(finalcount)
          invariant out == old(out) + Copies([block], i - old(blockcount))
        {
          CopiesAdd(block, i - old(blockcount), 1);
          out := out + [block];
        }
        blockcount := target;
      }
      if percent == 100 {
        out := out + "\n";
      }
    }
  }

  // ---------------------------------------------------------------------
  // A bar driven by a sequence of `progress` calls
  // ---------------------------------------------------------------------

  /** Characters shown after `progress` was called with each of `counts` in turn. */
  function RunBlockcount(finalcount: int, blockcount: int, counts: seq<int>): (r: int)
    decreases |counts|
  {
    if counts == [] then blockcount
    else RunBlockcount(finalcount, NextBlockcount(blockcount, finalcount, counts[0]), counts[1..])
  }

  /** Text written by those calls. */
  function RunOutput(finalcount: int, block: char, blockcount: int, counts: seq<int>): (r: string)
    decreases |counts|
  {
    if counts == [] then ""
    else StepOutput(blockcount, block, finalcount, counts[0])
         + RunOutput(finalcount, block, NextBlockcount(blockcount, finalcount, counts[0]), counts[1..])
  }

  /** The largest number of characters any one of `counts` asks for. */
  function HighestTarget(finalcount: int, counts: seq<int>): (r: int)
    requires counts != []
  {
    if |counts| == 1 then Percent(counts[0], finalcount) / 2
    else Max(HighestTarget(finalcount, counts[..|counts| - 1]), Percent(counts[|counts| - 1], finalcount) / 2)
  }

  /** Number of calls that found the bar complete. */
  function Completions(finalcount: int, counts: seq<int>): (r: nat)
  {
    if counts == [] then 0
    else Completions(finalcount, counts[..|counts| - 1])
         + (if Percent(counts[|counts| - 1], finalcount) == 100 then 1 else 0)
  }

  /** `s` with every newline taken out. */
  function WithoutNewlines(s: string): (r: string)
  {
    if s == [] then "" else WithoutNewlines(s[..|s| - 1]) + (if s[|s| - 1] == '\n' then "" else [s[|s| - 1]])
  }

  /** Number of newlines in `s`. */
  function Newlines(s: string): (r: nat)
  {
    if s == [] then 0 else Newlines(s[..|s| - 1]) + (if s[|s| - 1] == '\n' then 1 else 0)
  }

  lemma {:induction false} WithoutNewlinesAppend(s: string, t: string)
    ensures WithoutNewlines(s + t) == WithoutNewlines(s) + WithoutNewlines(t)
    ensures Newlines(s + t) == Newlines(s) + Newlines(t)
    decreases |t|
  {
    if t == [] {
      assert s + t == s;
    } else {
      assert (s + t)[..|s + t| - 1] == s + t[..|t| - 1];
      WithoutNewlinesAppend(s, t[..|t| - 1]);
    }
  }

  lemma {:induction false} WithoutNewlinesOfBlocks(block: char, n: int)
    requires block != '\n'
    ensures WithoutNewlines(Copies([block], n)) == Copies([block], n)
    ensures Newlines(Copies([block], n)) == 0
    decreases if n <= 0 then 0 else n
  {
    if n > 0 {
      var rest := Copies([block], n - 1);
      assert Copies([block], n) == [block] + rest;
      WithoutNewlinesOfBlocks(block, n - 1);
      WithoutNewlinesAppend([block], rest);
      WithoutNewlinesOfBlock(block);
    }
  }

  lemma WithoutNewlinesOfBlock(block: char)
    requires block != '\n'
    ensures WithoutNewlines([block]) == [block] && Newlines([block]) == 0
  {
    assert [block][..0] == [];
  }

  /** The bar shows the largest half-percentage asked for so far, and never
      less than it showed before. */
  lemma {:induction false} RunBlockcountIsRunningMax(finalcount: int, blockcount: int, counts: seq<int>)
    ensures RunBlockcount(finalcount, blockcount, counts)
            == if counts == [] then blockcount else Max(blockcount, HighestTarget(finalcount, counts))
    decreases |counts|
  {
    if |counts| > 1 {
      var next := NextBlockcount(blockcount, finalcount, counts[0]);
      RunBlockcountIsRunningMax(finalcount, next, counts[1..]);
      HighestTargetOfTail(finalcount, counts);
    }
  }

  /** Splitting off the first call: the highest target is the larger of the
      first call's target and the rest's. */
  lemma {:induction false} HighestTargetOfTail(finalcount: int, counts: seq<int>)
    requires |counts| > 1
    ensures HighestTarget(finalcount, counts)
            == Max(Percent(counts[0], finalcount) / 2, HighestTarget(finalcount, counts[1..]))
    decreases |counts|
  {
    var front := counts[..|counts| - 1];
    if |counts| > 2 {
      HighestTargetOfTail(finalcount, front);
      assert front[1..] == counts[1..][..|counts[1..]| - 1];
    } else {
      assert counts[1..] == [counts[1]];
    }
  }

  /** While the final count is not negative, the bar stays within its 50
      characters whatever counts it is given. */
  lemma {:induction false} RunStaysWithinBar(finalcount: int, blockcount: int, counts: seq<int>)
    requires finalcount >= 0 && 0 <= blockcount <= 50
    ensures blockcount <= RunBlockcount(finalcount, blockcount, counts) <= 50
    decreases |counts|
  {
    if counts != [] {
      RunStaysWithinBar(finalcount, NextBlockcount(blockcount, finalcount, counts[0]), counts[1..]);
    }
  }

  /** What one call writes: the missing progress characters, then the newline
      if the call found the bar complete. */
  lemma StepOutputParts(blockcount: int, block: char, finalcount: int, count: int)
    requires block != '\n'
    ensures var step := StepOutput(blockcount, block, finalcount, count);
            var next := NextBlockcount(blockcount, finalcount, count);
            && WithoutNewlines(step) == Copies([block], next - blockcount)
            && Newlines(step) == if Percent(count, finalcount) == 100 then 1 else 0
  {
    var percent := Percent(count, finalcount);
    var newline := if percent == 100 then "\n" else "";
    var blocks := Copies([block], percent / 2 - blockcount);
    assert StepOutput(blockcount, block, finalcount, count) == blocks + newline;
    assert blocks == Copies([block], NextBlockcount(blockcount, finalcount, count) - blockcount);
    WithoutNewlinesOfBlocks(block, percent / 2 - blockcount);
    WithoutNewlinesAppend(blocks, newline);
    assert WithoutNewlines(newline) == "" && Newlines(newline) == |newline| by {
      if newline != "" {
        assert newline[..0] == "";
      }
    }
  }

  /** Each call writes only the characters still missing, so the progress
      characters written add up to how far the bar advanced. */
  lemma {:induction false} RunOutputBlocks(finalcount: int, block: char, blockcount: int, counts: seq<int>)
    requires block != '\n'
    ensures WithoutNewlines(RunOutput(finalcount, block, blockcount, counts))
            == Copies([block], RunBlockcount(finalcount, blockcount, counts) - blockcount)
    decreases |counts|
  {
    if counts != [] {
      var next := NextBlockcount(blockcount, finalcount, counts[0]);
      var step := StepOutput(blockcount, block, finalcount, counts[0]);
      var rest := RunOutput(finalcount, block, next, counts[1..]);
      var last := RunBlockcount(finalcount, next, counts[1..]);
      assert RunOutput(finalcount, block, blockcount, counts) == step + rest;
      assert RunBlockcount(finalcount, blockcount, counts) == last;
      RunOutputBlocks(finalcount, block, next, counts[1..]);
      RunBlockcountMonotone(finalcount, next, counts[1..]);
      StepOutputParts(blockcount, block, finalcount, counts[0]);
      JoinBlocks(block, step, rest, blockcount, next, last);
    }
  }

  /** Two pieces of output holding the blocks from `a` to `b` and from `b` to
      `c` together hold the blocks from `a` to `c`. */
  lemma JoinBlocks(block: char, step: string, rest: string, a: int, b: int, c: int)
    requires a <= b <= c
    requires WithoutNewlines(step) == Copies([block], b - a)
    requires WithoutNewlines(rest) == Copies([block], c - b)
    ensures WithoutNewlines(step + rest) == Copies([block], c - a)
  {
    var front, back := Copies([block], b - a), Copies([block], c - b);
    WithoutNewlinesAppend(step, rest);
    assert WithoutNewlines(step + rest) == front + back;
    CopiesAdd(block, b - a, c - b);
    assert Copies([block], b - a + (c - b)) == Copies([block], c - a);
  }

  /** A newline is written once for every call that found the bar complete. */
  lemma {:induction false} RunOutputNewlines(finalcount: int, block: char, blockcount: int, counts: seq<int>)
    requires block != '\n'
    ensures Newlines(RunOutput(finalcount, block, blockcount, counts)) == Completions(finalcount, counts)
    decreases |counts|
  {
    if counts != [] {
      var next := NextBlockcount(blockcount, finalcount, counts[0]);
      var step := StepOutput(blockcount, block, finalcount, counts[0]);
      var rest := RunOutput(finalcount, block, next, counts[1..]);
      RunOutputNewlines(finalcount, block, next, counts[1..]);
      StepOutputParts(blockcount, block, finalcount, counts[0]);
      WithoutNewlinesAppend(step, rest);
      CompletionsOfTail(finalcount, counts);
    }
  }

  lemma {:induction false} RunBlockcountMonotone(finalcount: int, blockcount: int, counts: seq<int>)
    ensures RunBlockcount(finalcount, blockcount, counts) >= blockcount
    decreases |counts|
  {
    if counts != [] {
      RunBlockcountMonotone(finalcount, NextBlockcount(blockcount, finalcount, counts[0]), counts[1..]);
    }
  }

  lemma {:induction false} CompletionsOfTail(finalcount: int, counts: seq<int>)
    requires counts != []
    ensures Completions(finalcount, counts)
            == (if Percent(counts[0], finalcount) == 100 then 1 else 0) + Completions(finalcount, counts[1..])
    decreases |counts|
  {
    if |counts| > 1 {
      var front := counts[..|counts| - 1];
      CompletionsOfTail(finalcount, front);
      assert front[1..] == counts[1..][..|counts[1..]| - 1];
    } else {
      assert counts[1..] == [];
      assert counts[..0] == [];
    }
  }

  /** The example of the class documentation: a bar of final count 100 driven
      with 20, 40, 50 and 100 writes 10, 10, 5 and 25 characters, the last
      followed by a newline. */
  lemma ProgressExample()
    ensures StepOutput(0, 'o', 100, 20) == Copies("o", 10)
    ensures StepOutput(10, 'o', 100, 40) == Copies("o", 10)
    ensures StepOutput(20, 'o', 100, 50) == Copies("o", 5)
    ensures StepOutput(25, 'o', 100, 100) == Copies("o", 25) + "\n"
    ensures RunBlockcount(100, 0, [20, 40, 50, 100]) == 50
  {
    assert Percent(20, 100) == 20 && Percent(40, 100) == 40;
    assert Percent(50, 100) == 50 && Percent(100, 100) == 100;
    assert [20, 40, 50, 100][1..] == [40, 50, 100];
    assert [40, 50, 100][1..] == [50, 100];
    assert [50, 100][1..] == [100];
  }
}
