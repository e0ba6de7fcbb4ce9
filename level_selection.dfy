/** Choosing the levels to play from the command line (src/game/Ass6Game.java). */
module LevelSelection {
  /** The three levels of the game. */
  datatype Level = DirectHit | WideEasy | Green3

  /** The levels one argument contributes from the three independent tests of the loop body: at most
      one of them fires, so "1", "2" and "3" name a level each and anything else names none. */
  function LevelsOfArg(arg: string): (ls: seq<Level>)
    ensures ls == if arg == "1" then [DirectHit] else if arg == "2" then [WideEasy]
                  else if arg == "3" then [Green3] else []
  {
    assert "1"[0] != "2"[0] && "1"[0] != "3"[0] && "2"[0] != "3"[0];
    (if arg == "1" then [DirectHit] else []) +
    (if arg == "2" then [WideEasy] else []) +
    (if arg == "3" then [Green3] else [])
  }

  /** Whether an argument names a level. */
  predicate Recognised(arg: string)
  {
    arg == "1" || arg == "2" || arg == "3"
  }

  /** The levels the argument loop collects, in argument order. */
  function Collected(args: seq<string>): seq<Level>
  {
    if args == [] then [] else Collected(args[..|args| - 1]) + LevelsOfArg(args[|args| - 1])
  }

  /** The number of arguments that name a level. */
  function RecognisedCount(args: seq<string>): nat
  {
    if args == [] then 0 else RecognisedCount(args[..|args| - 1]) + (if Recognised(args[|args| - 1]) then 1 else 0)
  }

  /** The list handed to runLevels: the collected levels, or all three in order when none was named. */
  function SelectedLevels(args: seq<string>): seq<Level>
  {
    var ls := Collected(args);
    if ls == [] then [DirectHit, WideEasy, Green3] else ls
  }

  /** The collected list has one level per recognised argument, repeats included. */
  lemma {:induction false} CollectedCount(args: seq<string>)
    ensures |Collected(args)| == RecognisedCount(args)
  {
    if args != [] {
      CollectedCount(args[..|args| - 1]);
    }
  }

  /** Collecting two runs of arguments one after the other concatenates their levels, so the levels
      follow the order of the arguments. */
  lemma {:induction false} CollectedAppend(a: seq<string>, b: seq<string>)
    ensures Collected(a + b) == Collected(a) + Collected(b)
  {
    if b != [] {
      assert (a + b)[..|a + b| - 1] == a + b[..|b| - 1];
      assert (a + b)[|a + b| - 1] == b[|b| - 1];
      CollectedAppend(a, b[..|b| - 1]);
    } else {
      assert a + b == a;
    }
  }

  /** runLevels never receives an empty list: it gets one level per recognised argument, or the three
      default levels when no argument was recognised. */
  lemma SelectedLevelsProperties(args: seq<string>)
    ensures SelectedLevels(args) != []
    ensures RecognisedCount(args) > 0 ==>
      SelectedLevels(args) == Collected(args) && |SelectedLevels(args)| == RecognisedCount(args)
    ensures RecognisedCount(args) == 0 ==> SelectedLevels(args) == [DirectHit, WideEasy, Green3]
  {
    CollectedCount(args);
  }

  /** The argument loop of main and the fallback to the default levels. */
  method SelectLevels(args: seq<string>) returns (levels: seq<Level>)
    ensures levels == SelectedLevels(args)
  {
    levels := [];
    for k := 0 to |args|
      invariant levels == Collected(args[..k])
    {
      var arg := args[k];
      if arg == "1" {
        levels := levels + [DirectHit];
      }
      if arg == "2" {
        levels := levels + [WideEasy];
      }
      if arg == "3" {
        levels := levels + [Green3];
      }
      assert args[..k + 1][..k] == args[..k];
    }
    assert args[..|args|] == args;
    if levels == [] {
      levels := levels + [DirectHit];
      levels := levels + [WideEasy];
      levels := levels + [Green3];
    }
  }
}
