/**
 * The edits to the user's shell start-up file (`configfile` and
 * `cleanfile`; both scripts carry the same code). The file is a sequence
 * of lines, each with its trailing newline as `readlines` returns it.
 */
module ShellConfig {

  /** The two delimiter lines of the block; both are shell comments. */
  const MARKER_PREFIX := "#<<<$< "
  const BEGIN_MARKER := MARKER_PREFIX + "DO NOT REMOVE OR MODIFY NEXT 2 LINES, USED BY HARBOR MASTER >$>>>\n"
  const END_MARKER := MARKER_PREFIX + "END HARBOR MASTER >$>>>\n"

  function DigitChar(d: nat): char
    requires d < 10
  {
    "0123456789"[d]
  }

  /** Decimal digits of `n`, most significant first, without leading zeros. */
  function Digits(n: nat): (s: string)
    ensures |s| > 0 && forall i :: 0 <= i < |s| ==> '0' <= s[i] <= '9'
  {
    if n < 10 then [DigitChar(n)] else Digits(n / 10) + [DigitChar(n % 10)]
  }

  /** `{port}` in an f-string: a minus sign for a negative value, then the digits. */
  function Decimal(i: int): (s: string)
    ensures |s| > 0 && (i < 0 <==> s[0] == '-')
  {
    if i < 0 then "-" + Digits(-i) else Digits(i)
  }

  /** The middle line of the block; like every line `readlines` returns, it ends with a newline. */
  function ExportLine(port: int): (line: string)
    ensures |line| > 0 && line[|line| - 1] == '\n'
  {
    "export DOCKER_HOST=localhost:" + Decimal(port) + "\n"
  }

  /** `hmsShellPrepend`: the three lines written for `port`. */
  function MarkerBlock(port: int): (block: seq<string>)
    ensures |block| == 3 && block[0] == BEGIN_MARKER && block[2] == END_MARKER
    ensures block[1] == ExportLine(port)
    ensures block[0] != block[1] && block[1] != block[2] && block[0] != block[2]
  {
    var exported := ExportLine(port);
    assert exported[0] == 'e';
    assert BEGIN_MARKER[0] == '#';
    [BEGIN_MARKER, exported, END_MARKER]
  }

  predicate IsMarker(line: string, port: int) {
    line in MarkerBlock(port)
  }

  /** `configfile`: the lines of the file with the marker block appended. */
  function ConfigFile(lines: seq<string>, port: int): (r: seq<string>)
    ensures |r| == |lines| + 3
    ensures r[..|lines|] == lines
    ensures r[|lines|..] == MarkerBlock(port)
  {
    lines + MarkerBlock(port)
  }

  /** `[x for x in lines if x not in drop]`: the lines not listed in `drop`, in order. */
  function Drop(lines: seq<string>, drop: seq<string>): (r: seq<string>)
    ensures |r| <= |lines|
  {
    if lines == [] then []
    else (if lines[0] in drop then [] else [lines[0]]) + Drop(lines[1..], drop)
  }

  lemma {:induction false} DropMembers(lines: seq<string>, drop: seq<string>)
    ensures forall x :: x in Drop(lines, drop) <==> x in lines && x !in drop
  {
    if lines != [] {
      DropMembers(lines[1..], drop);
      assert lines == [lines[0]] + lines[1..];
    }
  }

  lemma {:induction false} DropAppend(a: seq<string>, b: seq<string>, drop: seq<string>)
    ensures Drop(a + b, drop) == Drop(a, drop) + Drop(b, drop)
  {
    if a == [] {
      assert a + b == b;
    } else {
      assert (a + b)[0] == a[0] && (a + b)[1..] == a[1..] + b;
      DropAppend(a[1..], b, drop);
    }
  }

  lemma {:induction false} DropCounts(lines: seq<string>, drop: seq<string>, x: string)
    ensures multiset(Drop(lines, drop))[x] == if x in drop then 0 else multiset(lines)[x]
  {
    if lines != [] {
      DropCounts(lines[1..], drop, x);
      var head := if lines[0] in drop then [] else [lines[0]];
      assert multiset(Drop(lines, drop)) == multiset(head) + multiset(Drop(lines[1..], drop));
      assert lines == [lines[0]] + lines[1..];
      assert multiset(lines) == multiset([lines[0]]) + multiset(lines[1..]);
    }
  }

  lemma {:induction false} DropKeeps(lines: seq<string>, drop: seq<string>)
    requires forall i :: 0 <= i < |lines| ==> lines[i] !in drop
    ensures Drop(lines, drop) == lines
  {
    if lines != [] {
      DropKeeps(lines[1..], drop);
    }
  }

  lemma {:induction false} DropAll(lines: seq<string>, drop: seq<string>)
    requires forall i :: 0 <= i < |lines| ==> lines[i] in drop
    ensures Drop(lines, drop) == []
  {
    if lines != [] {
      DropAll(lines[1..], drop);
    }
  }

  /** `cleanfile`: every line equal to one of the marker lines is dropped. */
  function CleanFile(lines: seq<string>, port: int): (r: seq<string>)
    ensures |r| <= |lines|
  {
    Drop(lines, MarkerBlock(port))
  }

  /** A line is in the cleaned file exactly when it is in the file and is not a marker line. */
  lemma CleanFileMembers(lines: seq<string>, port: int)
    ensures forall x :: x in CleanFile(lines, port) <==> x in lines && !IsMarker(x, port)
  {
    DropMembers(lines, MarkerBlock(port));
  }

  /** Cleaning works line by line: cleaning a concatenation cleans each part. */
  lemma CleanFileAppend(a: seq<string>, b: seq<string>, port: int)
    ensures CleanFile(a + b, port) == CleanFile(a, port) + CleanFile(b, port)
  {
    DropAppend(a, b, MarkerBlock(port));
  }

  /** A line that is not a marker line is kept as often as it occurs; a marker line never. */
  lemma CleanFileCounts(lines: seq<string>, port: int, x: string)
    ensures multiset(CleanFile(lines, port))[x] == if IsMarker(x, port) then 0 else multiset(lines)[x]
  {
    DropCounts(lines, MarkerBlock(port), x);
  }

  /** A file without marker lines is left as it is. */
  lemma CleanFileKeepsUnmarked(lines: seq<string>, port: int)
    requires forall i :: 0 <= i < |lines| ==> !IsMarker(lines[i], port)
    ensures CleanFile(lines, port) == lines
  {
    DropKeeps(lines, MarkerBlock(port));
  }

  /** A file made only of marker lines is emptied. */
  lemma CleanFileDropsMarkers(lines: seq<string>, port: int)
    requires forall i :: 0 <= i < |lines| ==> IsMarker(lines[i], port)
    ensures CleanFile(lines, port) == []
  {
    DropAll(lines, MarkerBlock(port));
  }

  /** Cleaning twice is cleaning once. */
  lemma CleanFileIdempotent(lines: seq<string>, port: int)
    ensures CleanFile(CleanFile(lines, port), port) == CleanFile(lines, port)
  {
    var r := CleanFile(lines, port);
    CleanFileMembers(lines, port);
    assert forall i :: 0 <= i < |r| ==> r[i] in r;
    CleanFileKeepsUnmarked(r, port);
  }

  /** Cleaning after configuring removes exactly what configuring added, and whatever marker lines were already there. */
  lemma CleanUndoesConfig(lines: seq<string>, port: int)
    ensures CleanFile(ConfigFile(lines, port), port) == CleanFile(lines, port)
  {
    CleanFileAppend(lines, MarkerBlock(port), port);
    CleanFileDropsMarkers(MarkerBlock(port), port);
  }

  /** The round trip: on a file that holds no marker line, cleaning restores what configuring was given. */
  lemma CleanConfigRoundTrip(lines: seq<string>, port: int)
    requires forall i :: 0 <= i < |lines| ==> !IsMarker(lines[i], port)
    ensures CleanFile(ConfigFile(lines, port), port) == lines
  {
    CleanUndoesConfig(lines, port);
    CleanFileKeepsUnmarked(lines, port);
  }
}
