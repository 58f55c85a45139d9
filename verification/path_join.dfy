/**
  `joinPath` (src/utils.js): joins path components with `/`, treating a `.`
  component as "here".
*/
module Utils {

  /** One step of the loop: a `.` output is replaced, a `.` component is skipped,
      anything else is appended after a single `/`. */
  function JoinStep(output: string, current: string): string {
    if output == "." then current
    else if current != "." then output + "/" + current
    else output
  }

  /** The loop's result on all of `args`: the first argument folded with `JoinStep`. */
  function Joined(args: seq<string>): string
    requires |args| > 0
  {
    if |args| == 1 then args[0] else JoinStep(Joined(args[..|args| - 1]), args[|args| - 1])
  }

  predicate AllDots(args: seq<string>) {
    forall i :: 0 <= i < |args| ==> args[i] == "."
  }

  /** The components that are not `.`, in order. */
  function NonDot(args: seq<string>): (r: seq<string>)
    ensures forall i :: 0 <= i < |r| ==> r[i] != "."
    ensures |r| == 0 <==> AllDots(args)
  {
    if |args| == 0 then []
    else
      var init := args[..|args| - 1];
      var last := args[|args| - 1];
      assert forall i :: 0 <= i < |init| ==> init[i] == args[i];
      NonDot(init) + (if last == "." then [] else [last])
  }

  /** The parts joined with `/` between consecutive parts. */
  function SlashJoin(parts: seq<string>): string {
    if |parts| == 0 then ""
    else if |parts| == 1 then parts[0]
    else SlashJoin(parts[..|parts| - 1]) + "/" + parts[|parts| - 1]
  }

  lemma SlashJoinNotDot(parts: seq<string>)
    requires |parts| > 0
    requires forall i :: 0 <= i < |parts| ==> parts[i] != "."
    ensures SlashJoin(parts) != "."
  {
    if |parts| > 1 {
      var s := SlashJoin(parts);
      var head := SlashJoin(parts[..|parts| - 1]);
      assert s[|head|] == '/';
    }
  }

  /** `joinPath` is `.` when every component is `.`, and otherwise the non-`.`
      components joined by single slashes, each kept verbatim. */
  lemma {:induction false} JoinedCharacterization(args: seq<string>)
    requires |args| > 0
    ensures AllDots(args) ==> Joined(args) == "."
    ensures !AllDots(args) ==> Joined(args) == SlashJoin(NonDot(args))
  {
    if |args| > 1 {
      var init := args[..|args| - 1];
      var last := args[|args| - 1];
      JoinedCharacterization(init);
      if !AllDots(init) {
        SlashJoinNotDot(NonDot(init));
        assert !AllDots(args) by {
          var k :| 0 <= k < |init| && init[k] != ".";
          assert args[k] != ".";
        }
        var q := NonDot(init);
        assert Joined(args) == JoinStep(SlashJoin(q), last);
        if last != "." {
          assert NonDot(args) == q + [last];
          assert (q + [last])[..|q|] == q;
          assert SlashJoin(q + [last]) == SlashJoin(q) + "/" + last;
        } else {
          assert NonDot(args) == q + [];
          assert q + [] == q;
        }
      } else if last != "." {
        assert NonDot(args) == [last];
      } else {
        assert AllDots(args) by {
          forall i | 0 <= i < |args| ensures args[i] == "." {
            if i < |init| { assert init[i] == args[i]; }
          }
        }
      }
    }
  }

  /** When no component is `.`, the result is all components joined by `/`. */
  lemma {:induction false} NoDotsJoinAll(args: seq<string>)
    requires |args| > 0
    requires forall i :: 0 <= i < |args| ==> args[i] != "."
    ensures Joined(args) == SlashJoin(args)
  {
    JoinedCharacterization(args);
    NonDotKeepsAll(args);
  }

  lemma {:induction false} NonDotKeepsAll(args: seq<string>)
    requires forall i :: 0 <= i < |args| ==> args[i] != "."
    ensures NonDot(args) == args
  {
    if |args| > 0 {
      NonDotKeepsAll(args[..|args| - 1]);
    }
  }

  /** `joinPath(...args)`: the loop of src/utils.js:9-20. The docstring asks for one
      or more components. */
  method JoinPath(args: seq<string>) returns (output: string)
    requires |args| > 0
    ensures output == Joined(args)
    ensures AllDots(args) ==> output == "."
    ensures !AllDots(args) ==> output == SlashJoin(NonDot(args))
    ensures |args| == 1 ==> output == args[0]
  {
    output := args[0];
    var i := 1;
    while i < |args|
      invariant 1 <= i <= |args|
      invariant output == Joined(args[..i])
    {
      var current := args[i];
      assert args[..i + 1][..i] == args[..i];
      if output == "." {
        output := current;
      } else if current != "." {
        output := output + "/" + current;
      }
      i := i + 1;
    }
    assert args[..|args|] == args;
    JoinedCharacterization(args);
  }

  /** The cases of tests/utils.test.js. */
  lemma JoinPathExamples()
    ensures Joined(["."]) == "."
    ensures Joined([".", "foo"]) == "foo"
    ensures Joined(["foo", "bar"]) == "foo/bar"
    ensures Joined(["foo", ".", "bar"]) == "foo/bar"
    ensures Joined(["foo"]) == "foo"
    ensures Joined(["foo", "bar/whee"]) == "foo/bar/whee"
  {
    assert ["foo", ".", "bar"][..2] == ["foo", "."];
    assert ["foo", ".", "bar"][..2][..1] == ["foo"];
  }
}
