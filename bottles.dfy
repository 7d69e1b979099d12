/**
 * `get99BottlesOfBeer()`: a counter `numOfBottles` starts at 99; while it is
 * above 2 the generator yields the verse line for the count and then, after
 * decrementing, the "take one down" line for the new count; then it yields six
 * fixed closing lines.
 */
module Bottles {
  import opened Options
  import opened Sequences

  predicate IsDigit(c: char)
  {
    '0' <= c <= '9'
  }

  function DigitChar(d: nat): (c: char)
    requires d < 10
    ensures IsDigit(c)
  {
    "0123456789"[d]
  }

  /** Decimal notation of `n`, as a template literal `${n}` writes it. */
  function NatToString(n: nat): (s: string)
    ensures |s| >= 1 && (forall i | 0 <= i < |s| :: IsDigit(s[i]))
    ensures |s| > 1 ==> s[0] != '0'
  {
    if n < 10 then [DigitChar(n)] else NatToString(n / 10) + [DigitChar(n % 10)]
  }

  function DigitValue(c: char): nat
    requires IsDigit(c)
  {
    c as int - '0' as int
  }

  /** The number a string of decimal digits denotes. */
  function DigitsValue(s: string): nat
    requires forall i | 0 <= i < |s| :: IsDigit(s[i])
  {
    if s == [] then 0 else 10 * DigitsValue(s[..|s| - 1]) + DigitValue(s[|s| - 1])
  }

  /** Reading back the decimal notation gives the number: the notation is unambiguous. */
  lemma {:induction false} NatToStringRoundTrip(n: nat)
    ensures DigitsValue(NatToString(n)) == n
  {
    var s := NatToString(n);
    if n >= 10 {
      NatToStringRoundTrip(n / 10);
      assert s[..|s| - 1] == NatToString(n / 10);
    }
  }

  // ---------------------------------------------------------------------------
  // The lyrics

  /** The line yielded at the top of each loop iteration, for count `n`. */
  function Verse(n: nat): (r: string)
    ensures |r| > |NatToString(n)| && r[..|NatToString(n)|] == NatToString(n)
  {
    NatToString(n) + " bottles of beer on the wall, " + NatToString(n) + " bottles of beer."
  }

  /** The line yielded after the decrement, naming the new count `n`. */
  function TakeOneDown(n: nat): (r: string)
    ensures |r| > 34 + |NatToString(n)| && r[34..34 + |NatToString(n)|] == NatToString(n)
  {
    "Take one down and pass it around, " + NatToString(n) + " bottles of beer on the wall."
  }

  const TwoBottlesLine := "2 bottles of beer on the wall, 2 bottles of beer."
  const OneLeftLine := "Take one down and pass it around, 1 bottle of beer on the wall."
  const OneBottleLine := "1 bottle of beer on the wall, 1 bottle of beer."
  const NoneLeftLine := "Take one down and pass it around, no more bottles of beer on the wall."
  const NoMoreLine := "No more bottles of beer on the wall, no more bottles of beer."
  const StoreLine := "Go to the store and buy some more, 99 bottles of beer on the wall."

  /** The six lines yielded after the loop, with their singular and "no more" wordings. */
  const Closing: seq<string> := [TwoBottlesLine, OneLeftLine, OneBottleLine, NoneLeftLine, NoMoreLine, StoreLine]

  /** Everything the generator yields from the loop test with the counter at `n`. */
  function SongFrom(n: int): (r: seq<string>)
    ensures |r| >= 6
    ensures n >= 2 ==> |r| == 2 * (n - 2) + 6
    decreases n
  {
    if n > 2 then [Verse(n), TakeOneDown(n - 1)] + SongFrom(n - 1) else Closing
  }

  /** The count the song starts from. */
  const TopCount: int := 99

  /** The whole song. */
  function Song(): seq<string>
  {
    SongFrom(TopCount)
  }

  /** Line `2k` of the loop part is the verse for `n - k`, line `2k + 1` takes it down to `n - k - 1`. */
  lemma {:induction false} SongFromAt(n: int, k: nat)
    requires n >= 2 && k < n - 2
    ensures |SongFrom(n)| > 2 * k + 1
    ensures SongFrom(n)[2 * k] == Verse(n - k)
    ensures SongFrom(n)[2 * k + 1] == TakeOneDown(n - k - 1)
    decreases n
  {
    var rest := SongFrom(n - 1);
    assert SongFrom(n) == [Verse(n), TakeOneDown(n - 1)] + rest;
    if k > 0 {
      var n', k' := n - 1, k - 1;
      SongFromAt(n', k');
      assert n' - k' == n - k && n' - k' - 1 == n - k - 1;
      assert SongFrom(n)[2 * k] == rest[2 * k'];
      assert SongFrom(n)[2 * k + 1] == rest[2 * k' + 1];
    }
  }

  /** After the loop part come exactly the closing lines. */
  lemma {:induction false} SongFromClosing(n: int)
    requires n >= 2
    ensures |SongFrom(n)| >= 2 * (n - 2) && SongFrom(n)[2 * (n - 2)..] == Closing
    decreases n
  {
    if n > 2 {
      SongFromClosing(n - 1);
      var rest := SongFrom(n - 1);
      assert SongFrom(n)[2 * (n - 2)..] == rest[2 * (n - 3)..];
    }
  }

  /** The loop runs for the counts 99 down to 3, two lines each, and six closing lines follow: 200 lines. */
  lemma SongLength()
    ensures |Song()| == 97 * 2 + 6 == 200
  {
  }

  /** For each `k < 97`, line `2k` is the verse for `99 - k` and line `2k + 1` announces `98 - k`. */
  lemma SongLines(k: nat)
    requires k < 97
    ensures |Song()| == 200
    ensures Song()[2 * k] == Verse(99 - k)
    ensures Song()[2 * k + 1] == TakeOneDown(98 - k)
  {
    SongLength();
    SongFromAt(99, k);
  }

  /** The last six lines are the closing lines, ending with "Go to the store ...". */
  lemma SongEnding()
    ensures |Song()| == 200 && Song()[194..] == Closing
    ensures Song()[199] == "Go to the store and buy some more, 99 bottles of beer on the wall."
  {
    SongLength();
    SongFromClosing(99);
    assert Song()[199] == Song()[194..][5];
  }

  /** The counts at the top of the song, as they are written. */
  lemma TopCounts()
    ensures NatToString(99) == "99" && NatToString(98) == "98"
  {
    assert NatToString(99) == NatToString(9) + [DigitChar(9)];
    assert NatToString(98) == NatToString(9) + [DigitChar(8)];
    assert NatToString(9) == [DigitChar(9)] && DigitChar(9) == '9' && DigitChar(8) == '8';
  }

  /** The first two lines: the verse for 99 and the line taking it down to 98. */
  lemma SongOpening()
    ensures |Song()| == 200
    ensures Song()[0] == Verse(99) && Song()[1] == TakeOneDown(98)
  {
    SongLines(0);
  }

  // Joins of string literals, in steps that append a short piece on the right.

  lemma JoinNinetyNine()
    ensures "99" + " bottles of beer on the wall, " == "99 bottles of beer on the wall, "
    ensures "99 bottles of beer on the wall, " + "99" == "99 bottles of beer on the wall, 99"
    ensures "99 bottles of beer on the wall, 99" + " bottles of beer." == "99 bottles of beer on the wall, 99 bottles of beer."
  {
  }

  lemma JoinNinetyEight()
    ensures "Take one down and pass it around, " + "98" == "Take one down and pass it around, 98"
    ensures "Take one down and pass it around, 98" + " bottles of beer on the wall." == "Take one down and pass it around, 98 bottles of beer on the wall."
  {
  }

  lemma JoinTwoFirst()
    ensures "2" + " bottles of beer on the wall, " == "2 bottles of beer on the wall, "
  {
  }

  lemma JoinTwoSecond()
    ensures "2 bottles of beer on the wall, " + "2" == "2 bottles of beer on the wall, 2"
  {
  }

  lemma JoinTwoThird()
    ensures "2 bottles of beer on the wall, 2" + " bottles of beer." == TwoBottlesLine
  {
  }

  /** The first two lines, letter for letter. */
  lemma OpeningText()
    ensures |Song()| == 200
    ensures Song()[0] == "99 bottles of beer on the wall, 99 bottles of beer."
    ensures Song()[1] == "Take one down and pass it around, 98 bottles of beer on the wall."
  {
    SongOpening();
    TopCounts();
    JoinNinetyNine();
    JoinNinetyEight();
  }

  /** The first closing line is what the generic verse would give for 2. */
  lemma TwoBottlesIsGeneric()
    ensures TwoBottlesLine == Verse(2)
  {
    assert NatToString(2) == "2" by {
      assert NatToString(2) == [DigitChar(2)] && DigitChar(2) == '2';
    }
    JoinTwoFirst();
    JoinTwoSecond();
    JoinTwoThird();
  }

  // Letters, counted from the end, that tell the closing lines apart from the generic ones.

  lemma ClosingShapes()
    ensures |OneLeftLine| == 63 && OneLeftLine[61] == 'l' && OneLeftLine[33] == ' '
    ensures |OneBottleLine| == 47 && OneBottleLine[45] == 'r' && OneBottleLine[29] == ' '
    ensures |NoneLeftLine| == 70 && NoneLeftLine[68] == 'l' && NoneLeftLine[40] == 'e'
    ensures |NoMoreLine| == 61 && NoMoreLine[59] == 'r' && NoMoreLine[43] == 'e'
    ensures |StoreLine| == 66 && StoreLine[64] == 'l' && StoreLine[33] == ','
  {
  }

  /**
   * No verse line, whatever its count, reads like a closing line with the
   * singular "1 bottle", the "no more" wording or the trip to the store.
   */
  lemma VerseNotSpecial(n: nat)
    ensures forall j | 1 <= j < 6 :: Verse(n) != Closing[j]
  {
    var d := NatToString(n);
    var verse := Verse(n);
    assert |verse| == 2 * |d| + 47;
    assert verse[|verse| - 2] == 'r';
    assert verse[|verse| - 18] == d[|d| - 1] && IsDigit(verse[|verse| - 18]);
    ClosingShapes();
  }

  /** The same for the "take one down" lines. */
  lemma TakeOneDownNotSpecial(n: nat)
    ensures forall j | 1 <= j < 6 :: TakeOneDown(n) != Closing[j]
  {
    var d := NatToString(n);
    var take := TakeOneDown(n);
    assert |take| == |d| + 63;
    assert take[|take| - 2] == 'l';
    assert take[|take| - 30] == d[|d| - 1] && IsDigit(take[|take| - 30]);
    assert take[33] == ' ';
    ClosingShapes();
  }

  /** The loop part of `SongFrom(n)` holds none of the closing lines after the first. */
  lemma {:induction false} LoopLinesNotSpecial(n: int)
    requires n >= 2
    ensures |SongFrom(n)| == 2 * (n - 2) + 6
    ensures forall k, j | 0 <= k < 2 * (n - 2) && 1 <= j < 6 :: SongFrom(n)[k] != Closing[j]
    decreases n
  {
    if n > 2 {
      LoopLinesNotSpecial(n - 1);
      VerseNotSpecial(n);
      TakeOneDownNotSpecial(n - 1);
      var rest := SongFrom(n - 1);
      assert SongFrom(n) == [Verse(n), TakeOneDown(n - 1)] + rest;
      forall k, j | 0 <= k < 2 * (n - 2) && 1 <= j < 6
        ensures SongFrom(n)[k] != Closing[j]
      {
        if k >= 2 {
          assert SongFrom(n)[k] == rest[k - 2];
        }
      }
    }
  }

  /** The singular and "no more" lines, and the last line, occur only in the closing part. */
  lemma SpecialLinesOnlyInClosing()
    ensures |Song()| == 200
    ensures forall k, j | 0 <= k < 194 && 1 <= j < 6 :: Song()[k] != Closing[j]
  {
    LoopLinesNotSpecial(TopCount);
  }

  // ---------------------------------------------------------------------------
  // The generator

  /** Where the generator is suspended: at the loop test, after the verse line, or after `k` closing lines. */
  datatype ResumePoint = AtLoopTest | AfterVerse | AfterClosing(k: nat)

  class BottlesSong {
    var numOfBottles: int
    var point: ResumePoint
    /** Lines yielded so far. */
    ghost var emitted: seq<string>
    /** Everything the generator yields over its lifetime. */
    ghost const lyrics: seq<string>

    /** The counter only moves from 99 down to 2, and the loop is left with it at 2. */
    ghost predicate CounterValid()
      reads this
    {
      && 2 <= numOfBottles <= 99
      && match point
         case AtLoopTest => true
         case AfterVerse => numOfBottles > 2
         case AfterClosing(k) => numOfBottles == 2 && 1 <= k <= 6
    }

    /** What the generator still has to yield. */
    ghost function Remaining(): seq<string>
      reads this
      requires CounterValid()
    {
      match point
      case AtLoopTest => SongFrom(numOfBottles)
      case AfterVerse => [TakeOneDown(numOfBottles - 1)] + SongFrom(numOfBottles - 1)
      case AfterClosing(k) => Closing[k..]
    }

    ghost predicate Valid()
      reads this
    {
      CounterValid() && emitted + Remaining() == lyrics
    }

    constructor ()
      ensures Valid() && lyrics == Song()
      ensures numOfBottles == 99 && point == AtLoopTest && emitted == []
    {
      lyrics := Song();
      numOfBottles := 99;
      point := AtLoopTest;
      emitted := [];
    }

    /** The loop test: the verse for the current count, or the first closing line once the count is 2. */
    method LoopTest() returns (line: string)
      requires Valid() && point == AtLoopTest
      modifies this`point, this`emitted
      ensures Valid() && numOfBottles == old(numOfBottles)
      ensures old(Remaining()) != [] && line == old(Remaining())[0] && Remaining() == old(Remaining())[1..]
      ensures emitted == old(emitted) + [line]
    {
      ghost var before := Remaining();
      if numOfBottles > 2 {
        line := Verse(numOfBottles);
        point := AfterVerse;
        assert before[1..] == Remaining();
      } else {
        line := Closing[0];
        point := AfterClosing(1);
      }
      HeadRest(before);
      assert (emitted + [line]) + Remaining() == emitted + before;
      emitted := emitted + [line];
    }

    /** The pre-decrement and the "take one down" line naming the new count. */
    method TakeDown() returns (line: string)
      requires Valid() && point == AfterVerse
      modifies this`numOfBottles, this`point, this`emitted
      ensures Valid() && numOfBottles == old(numOfBottles) - 1
      ensures old(Remaining()) != [] && line == old(Remaining())[0] && Remaining() == old(Remaining())[1..]
      ensures emitted == old(emitted) + [line]
    {
      ghost var before := Remaining();
      numOfBottles := numOfBottles - 1;
      line := TakeOneDown(numOfBottles);
      point := AtLoopTest;
      assert before == [line] + Remaining();
      assert (emitted + [line]) + Remaining() == emitted + before;
      emitted := emitted + [line];
    }

    /** After `k` closing lines: the next one, or the end of the song. */
    method ClosingStep() returns (line: Option<string>)
      requires Valid() && point.AfterClosing?
      modifies this`point, this`emitted
      ensures Valid() && numOfBottles == old(numOfBottles)
      ensures line.None? <==> old(Remaining()) == []
      ensures line.Some? ==> line.value == old(Remaining())[0] && Remaining() == old(Remaining())[1..]
      ensures emitted == old(emitted) + (if line.Some? then [line.value] else [])
    {
      ghost var before := Remaining();
      var k := point.k;
      if k < 6 {
        line := Some(Closing[k]);
        point := AfterClosing(k + 1);
        HeadRest(before);
        assert (emitted + [line.value]) + Remaining() == emitted + before;
        emitted := emitted + [line.value];
      } else {
        line := None;
      }
    }

    /** One pull: the next line of the song, or `None` after the last one (and on every later pull). */
    method Next() returns (line: Option<string>)
      requires Valid()
      modifies this
      ensures Valid()
      ensures line.None? <==> old(Remaining()) == []
      ensures line.Some? ==> line.value == old(Remaining())[0] && Remaining() == old(Remaining())[1..]
      ensures emitted == old(emitted) + (if line.Some? then [line.value] else [])
    {
      match point {
        case AtLoopTest =>
          var verse := LoopTest();
          line := Some(verse);
        case AfterVerse =>
          var take := TakeDown();
          line := Some(take);
        case AfterClosing(_) =>
          line := ClosingStep();
      }
    }
  }

  /** Pulls `get99BottlesOfBeer()` until it is done: the whole song, 200 lines. */
  method Sing() returns (lines: seq<string>)
    ensures lines == Song() && |lines| == 200
  {
    var song := new BottlesSong();
    lines := [];
    while true
      invariant song.Valid() && lines == song.emitted
      decreases |song.Remaining()|
    {
      var next := song.Next();
      if next.None? {
        break;
      }
      lines := lines + [next.value];
    }
    SongLength();
  }
}
