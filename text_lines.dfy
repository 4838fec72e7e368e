/**
 * Splitting text into the lines a shell reads and joining lines back, used to state how the
 * script built around a command is laid out line by line.
 */
module TextLines {

  /** The pieces of `s` between newline characters, in order; a string with no newline is one line. */
  function Lines(s: string): (r: seq<string>)
    ensures |r| >= 1
    ensures forall i :: 0 <= i < |r| ==> '\n' !in r[i]
    decreases |s|
  {
    if |s| == 0 then [""]
    else if s[0] == '\n' then [""] + Lines(s[1..])
    else
      var rest := Lines(s[1..]);
      [[s[0]] + rest[0]] + rest[1..]
  }

  /** The lines joined with a newline between each two, the layout of a Swift multi-line literal. */
  function JoinLines(lines: seq<string>): string
    requires |lines| >= 1
  {
    if |lines| == 1 then lines[0] else lines[0] + "\n" + JoinLines(lines[1..])
  }

  /** Text with no newline is a single line. */
  lemma {:induction false} LinesOfSingleLine(s: string)
    requires '\n' !in s
    ensures Lines(s) == [s]
    decreases |s|
  {
    if |s| > 0 {
      assert '\n' !in s[1..] by {
        forall i | 0 <= i < |s[1..]| ensures s[1..][i] != '\n' {
          assert s[1..][i] == s[i + 1];
        }
      }
      LinesOfSingleLine(s[1..]);
      assert [s[0]] + s[1..] == s;
    }
  }

  /** A newline between two texts separates their lines and changes none of them. */
  lemma {:induction false} LinesOfConcat(a: string, b: string)
    ensures Lines(a + "\n" + b) == Lines(a) + Lines(b)
    decreases |a|
  {
    var s := a + "\n" + b;
    if |a| == 0 {
      assert s[0] == '\n' && s[1..] == b;
    } else {
      assert s[0] == a[0];
      assert s[1..] == a[1..] + "\n" + b;
      LinesOfConcat(a[1..], b);
      if a[0] != '\n' {
        LinesOfConsChar(a[0], a[1..], b);
      }
    }
  }

  /** The inductive step of LinesOfConcat for a first character that is not a newline. */
  lemma LinesOfConsChar(c: char, tail: string, b: string)
    requires c != '\n'
    requires Lines(tail + "\n" + b) == Lines(tail) + Lines(b)
    ensures Lines([c] + tail + "\n" + b) == Lines([c] + tail) + Lines(b)
  {
    var x := tail + "\n" + b;
    assert [c] + tail + "\n" + b == [c] + x;
    LinesOfCons(c, x);
    LinesOfCons(c, tail);
  }

  /** Prepending a character that is not a newline extends the first line. */
  lemma LinesOfCons(c: char, tail: string)
    requires c != '\n'
    ensures Lines([c] + tail) == [[c] + Lines(tail)[0]] + Lines(tail)[1..]
  {
    assert ([c] + tail)[1..] == tail;
  }
}
