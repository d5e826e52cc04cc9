/** The two line-list routines of urdfModifiers/utils/utils.py: splitting the
    lines of a URDF file into the robot description and the Gazebo plugin
    blocks, and splicing plugin lines back in before the file's last line. */
module GazeboPlugins {
  import opened Wrappers

  // ---------------------------------------------------------------------------
  // Markers

  /** `pat` occurs in `line` starting at index `i`. */
  predicate OccursAt(line: string, pat: string, i: nat) {
    i + |pat| <= |line| && line[i..i + |pat|] == pat
  }

  /** Whether `pat` occurs in `line` (Python's `pat in line`). */
  function Contains(line: string, pat: string): (r: bool)
    ensures r <==> exists i: nat :: OccursAt(line, pat, i)
    decreases |line|
  {
    if |line| < |pat| then false
    else if line[..|pat|] == pat then
      assert OccursAt(line, pat, 0);
      true
    else
      var r := Contains(line[1..], pat);
      assert forall i: nat :: OccursAt(line[1..], pat, i) <==> OccursAt(line, pat, i + 1) by {
        forall i: nat ensures OccursAt(line[1..], pat, i) <==> OccursAt(line, pat, i + 1) {
          if i + |pat| <= |line[1..]| {
            assert line[1..][i..i + |pat|] == line[i + 1..i + 1 + |pat|];
          }
        }
      }
      assert !OccursAt(line, pat, 0);
      assert r ==> OccursAt(line, pat, (var i: nat :| OccursAt(line[1..], pat, i); i) + 1);
      assert !r ==> forall i: nat :: !OccursAt(line, pat, i) by {
        if !r {
          forall i: nat ensures !OccursAt(line, pat, i) {
            if i > 0 {
              assert !OccursAt(line[1..], pat, i - 1);
            }
          }
        }
      }
      r
  }

  /** A line that opens a Gazebo block. */
  predicate Opens(line: string) {
    Contains(line, "<gazebo") || Contains(line, "< gazebo")
  }

  /** A line that closes a Gazebo block. */
  predicate Closes(line: string) {
    Contains(line, "</gazebo") || Contains(line, "< /gazebo")
  }

  // ---------------------------------------------------------------------------
  // The classifier

  /** Whether a line read in state `inBlock` is a Gazebo line: the opening check
      runs before the line is classified. */
  predicate IsGazebo(inBlock: bool, line: string) {
    inBlock || Opens(line)
  }

  /** The state after reading a line: the closing check runs after the line is
      classified and ends the block. */
  predicate Next(inBlock: bool, line: string)
    ensures Next(inBlock, line) <==> IsGazebo(inBlock, line) && !Closes(line)
  {
    if Closes(line) then false else IsGazebo(inBlock, line)
  }

  /** The state after reading all of `lines`, starting in state `inBlock`. */
  function StateAfter(lines: seq<string>, inBlock: bool): bool
    decreases |lines|
  {
    if lines == [] then inBlock else StateAfter(lines[1..], Next(inBlock, lines[0]))
  }

  /** The two parts of a split: robot lines and Gazebo lines. */
  datatype Parts = Parts(robot: seq<string>, gazebo: seq<string>)

  /** The split of `lines` read from state `inBlock`, line by line from the
      first: every line goes to exactly one part. */
  function Split(lines: seq<string>, inBlock: bool): (p: Parts)
    ensures |p.robot| + |p.gazebo| == |lines|
    decreases |lines|
  {
    if lines == [] then Parts([], [])
    else
      var p := Split(lines[1..], Next(inBlock, lines[0]));
      assert lines == [lines[0]] + lines[1..];
      if IsGazebo(inBlock, lines[0]) then Parts(p.robot, [lines[0]] + p.gazebo)
      else Parts([lines[0]] + p.robot, p.gazebo)
  }

  /** The two parts together hold exactly the input lines, with their repetitions. */
  lemma {:induction false} SplitPartition(lines: seq<string>, inBlock: bool)
    ensures multiset(Split(lines, inBlock).robot) + multiset(Split(lines, inBlock).gazebo) == multiset(lines)
    decreases |lines|
  {
    if lines != [] {
      SplitPartition(lines[1..], Next(inBlock, lines[0]));
      SplitFirst(lines, inBlock);
      assert lines == [lines[0]] + lines[1..];
    }
  }

  /** Splitting a concatenation splits the second list from the state the first
      one leaves. */
  lemma {:induction false} SplitAppend(a: seq<string>, b: seq<string>, inBlock: bool)
    ensures var s := StateAfter(a, inBlock);
      Split(a + b, inBlock) == Parts(Split(a, inBlock).robot + Split(b, s).robot, Split(a, inBlock).gazebo + Split(b, s).gazebo)
    ensures StateAfter(a + b, inBlock) == StateAfter(b, StateAfter(a, inBlock))
    decreases |a|
  {
    if a == [] {
      assert a + b == b;
    } else {
      var t := Next(inBlock, a[0]);
      assert (a + b)[0] == a[0] && (a + b)[1..] == a[1..] + b;
      SplitAppend(a[1..], b, t);
      SplitFirst(a, inBlock);
      SplitFirst(a + b, inBlock);
      var q, r := Split(a[1..], t), Split(b, StateAfter(a[1..], t));
      if IsGazebo(inBlock, a[0]) {
        ConcatAssoc([a[0]], q.gazebo, r.gazebo);
      } else {
        ConcatAssoc([a[0]], q.robot, r.robot);
      }
    }
  }

  /** One step of Split: the first line joins the part its classification names. */
  lemma SplitFirst(lines: seq<string>, inBlock: bool)
    requires lines != []
    ensures var p := Split(lines[1..], Next(inBlock, lines[0]));
      Split(lines, inBlock) ==
        if IsGazebo(inBlock, lines[0]) then Parts(p.robot, [lines[0]] + p.gazebo)
        else Parts([lines[0]] + p.robot, p.gazebo)
  {
  }

  lemma ConcatAssoc<T>(x: seq<T>, y: seq<T>, z: seq<T>)
    ensures (x + y) + z == x + (y + z)
  {
  }

  /** Whether line `i` goes to the Gazebo part. */
  predicate IsGazeboLine(lines: seq<string>, inBlock: bool, i: nat)
    requires i < |lines|
  {
    IsGazebo(StateAfter(lines[..i], inBlock), lines[i])
  }

  /** Reading one more line moves the state by one step. */
  lemma StatePrefix(lines: seq<string>, inBlock: bool, i: nat)
    requires i < |lines|
    ensures StateAfter(lines[..i + 1], inBlock) == Next(StateAfter(lines[..i], inBlock), lines[i])
  {
    assert lines[..i + 1] == lines[..i] + [lines[i]];
    SplitAppend(lines[..i], [lines[i]], inBlock);
  }

  /** separate_gazebo_plugins, on the lines of the file: one pass with a flag,
      appending each line to one of two lists. */
  method SeparateGazeboPlugins(lines: seq<string>) returns (robotLines: seq<string>, gazeboLines: seq<string>)
    ensures Parts(robotLines, gazeboLines) == Split(lines, false)
  {
    robotLines := [];
    gazeboLines := [];
    var isGazebo := false;
    for i := 0 to |lines|
      invariant Parts(robotLines, gazeboLines) == Split(lines[..i], false)
      invariant isGazebo == StateAfter(lines[..i], false)
    {
      var line := lines[i];
      assert lines[..i + 1] == lines[..i] + [line];
      SplitAppend(lines[..i], [line], false);
      if Contains(line, "<gazebo") || Contains(line, "< gazebo") {
        isGazebo := true;
      }
      if isGazebo {
        gazeboLines := gazeboLines + [line];
      } else {
        robotLines := robotLines + [line];
      }
      if Contains(line, "</gazebo") || Contains(line, "< /gazebo") {
        isGazebo := false;
      }
    }
    assert lines[..|lines|] == lines;
  }

  // ---------------------------------------------------------------------------
  // What the split means

  /** Order is kept: the split of a prefix is a prefix of the split, part by
      part, and line `i` is the next line of its part after the lines before it. */
  lemma SplitPosition(lines: seq<string>, inBlock: bool, i: nat)
    requires i < |lines|
    ensures var p := Split(lines, inBlock); var q := Split(lines[..i], inBlock);
      q.robot <= p.robot && q.gazebo <= p.gazebo &&
      if IsGazeboLine(lines, inBlock, i) then |q.gazebo| < |p.gazebo| && p.gazebo[|q.gazebo|] == lines[i]
      else |q.robot| < |p.robot| && p.robot[|q.robot|] == lines[i]
  {
    assert lines == lines[..i] + lines[i..];
    SplitAppend(lines[..i], lines[i..], inBlock);
    assert lines[i..][0] == lines[i];
  }

  /** A line that opens a block is a Gazebo line, and so is every following line
      up to and including the first one that closes. */
  lemma {:induction false} GazeboSpan(lines: seq<string>, inBlock: bool, j: nat, i: nat)
    requires j <= i < |lines| && Opens(lines[j])
    requires forall k :: j <= k < i ==> !Closes(lines[k])
    ensures IsGazeboLine(lines, inBlock, i)
    decreases i - j
  {
    if j < i {
      GazeboSpan(lines, inBlock, j, i - 1);
      StatePrefix(lines, inBlock, i - 1);
    }
  }

  /** Conversely, read from the start of a file, a Gazebo line has an opening
      line at or before it with no closing line in between. */
  lemma {:induction false} GazeboLineOpened(lines: seq<string>, i: nat)
    requires i < |lines| && IsGazeboLine(lines, false, i)
    ensures exists j :: 0 <= j <= i && Opens(lines[j]) && forall k :: j <= k < i ==> !Closes(lines[k])
    decreases i
  {
    if !Opens(lines[i]) {
      assert i > 0 by {
        assert lines[..0] == [];
      }
      StatePrefix(lines, false, i - 1);
      GazeboLineOpened(lines, i - 1);
      var j :| 0 <= j <= i - 1 && Opens(lines[j]) && forall k :: j <= k < i - 1 ==> !Closes(lines[k]);
      assert forall k :: j <= k < i ==> !Closes(lines[k]);
    }
  }

  /** A line that closes a block ends it: the next line is a robot line unless it
      opens a block itself. In particular a line that both opens and closes is a
      Gazebo line followed by a robot line. */
  lemma CloseEndsBlock(lines: seq<string>, inBlock: bool, i: nat)
    requires i + 1 < |lines| && Closes(lines[i]) && !Opens(lines[i + 1])
    ensures !IsGazeboLine(lines, inBlock, i + 1)
  {
    StatePrefix(lines, inBlock, i);
  }

  /** Input without any marker stays whole in the robot part. */
  lemma {:induction false} NoMarkers(lines: seq<string>)
    requires forall i :: 0 <= i < |lines| ==> !Opens(lines[i])
    ensures Split(lines, false) == Parts(lines, [])
    ensures !StateAfter(lines, false)
    decreases |lines|
  {
    if lines != [] {
      NoMarkers(lines[1..]);
      assert [lines[0]] + lines[1..] == lines;
    }
  }

  /** A block that is opened and never closed takes every later line. */
  lemma OpenWithoutClose(lines: seq<string>, inBlock: bool, j: nat)
    requires j < |lines| && Opens(lines[j])
    requires forall k :: j <= k < |lines| ==> !Closes(lines[k])
    ensures forall i :: j <= i < |lines| ==> IsGazeboLine(lines, inBlock, i)
  {
    forall i | j <= i < |lines|
      ensures IsGazeboLine(lines, inBlock, i)
    {
      GazeboSpan(lines, inBlock, j, i);
    }
  }

  // ---------------------------------------------------------------------------
  // Writing the plugins back

  /** The splice of write_urdf_to_file: the last saved line is popped, the plugin
      lines appended, and the last line appended again. Popping from an empty
      list raises, which is None here. */
  method SpliceGazeboPlugins(lines: seq<string>, gazeboPlugins: seq<string>) returns (r: Option<seq<string>>)
    ensures r.None? <==> lines == []
    ensures r.Some? ==> |r.value| == |lines| + |gazeboPlugins|
    ensures r.Some? ==> r.value[..|lines| - 1] == lines[..|lines| - 1]
    ensures r.Some? ==> r.value[|lines| - 1..|r.value| - 1] == gazeboPlugins
    ensures r.Some? ==> r.value[|r.value| - 1] == lines[|lines| - 1]
  {
    if lines == [] {
      return None;
    }
    var saved := lines;
    var lastLine := saved[|saved| - 1];
    saved := saved[..|saved| - 1];
    saved := saved + gazeboPlugins;
    saved := saved + [lastLine];
    r := Some(saved);
  }

  /** A block of plugin lines: read from outside a block, every line is a
      Gazebo line and the block is closed at the end. */
  predicate ClosedBlock(plugins: seq<string>) {
    (forall i :: 0 <= i < |plugins| ==> IsGazeboLine(plugins, false, i)) && !StateAfter(plugins, false)
  }

  /** Writing plugins into a robot description without markers and splitting the
      result gives back the description and the plugins. */
  lemma SpliceThenSplit(lines: seq<string>, plugins: seq<string>)
    requires lines != [] && forall i :: 0 <= i < |lines| ==> !Opens(lines[i])
    requires ClosedBlock(plugins)
    ensures Split(lines[..|lines| - 1] + plugins + [lines[|lines| - 1]], false) == Parts(lines, plugins)
  {
    var n := |lines| - 1;
    var head, last := lines[..n], [lines[n]];
    NoMarkers(head);
    AllGazebo(plugins, false);
    SplitJoin(head, plugins, head, [], [], plugins);
    assert head + [] == head && [] + plugins == plugins;
    NoMarkers(last);
    SplitJoin(head + plugins, last, head, plugins, last, []);
    assert head + last == lines && plugins + [] == plugins;
  }

  /** Splitting a concatenation whose first list ends outside a block, given
      the splits of both lists. */
  lemma SplitJoin(a: seq<string>, b: seq<string>, ra: seq<string>, ga: seq<string>, rb: seq<string>, gb: seq<string>)
    requires Split(a, false) == Parts(ra, ga) && !StateAfter(a, false)
    requires Split(b, false) == Parts(rb, gb)
    ensures Split(a + b, false) == Parts(ra + rb, ga + gb)
    ensures StateAfter(a + b, false) == StateAfter(b, false)
  {
    SplitAppend(a, b, false);
  }

  /** A list whose every line is a Gazebo line splits into the Gazebo part only. */
  lemma {:induction false} AllGazebo(lines: seq<string>, inBlock: bool)
    requires forall i :: 0 <= i < |lines| ==> IsGazeboLine(lines, inBlock, i)
    ensures Split(lines, inBlock) == Parts([], lines)
    decreases |lines|
  {
    if lines != [] {
      var rest, s := lines[1..], Next(inBlock, lines[0]);
      assert IsGazeboLine(lines, inBlock, 0) by {
        assert lines[..0] == [];
      }
      forall i | 0 <= i < |rest|
        ensures IsGazeboLine(rest, s, i)
      {
        assert IsGazeboLine(lines, inBlock, i + 1);
        assert lines[..i + 1][0] == lines[0] && lines[..i + 1][1..] == rest[..i];
      }
      AllGazebo(rest, s);
      assert [lines[0]] + rest == lines;
    }
  }
}
