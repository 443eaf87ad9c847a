/**
 * The state shown at a cursor position: the reducer run over the log prefix
 * ending at the cursor, or nothing while game data, cards or squads are missing.
 */
module UseGameState {
  import opened Wrappers
  import opened Cards
  import opened SquadDto
  import opened GameStateDto
  import opened Calculator

  /**
   * Where `xs.slice(0, end)` stops on a sequence of length `len`: a negative
   * end counts back from the end, and the result is clamped to `[0, len]`.
   */
  function SliceEnd(len: nat, end: int): (r: nat)
    ensures r <= len
    ensures 0 <= end <= len ==> r == end
    ensures end > len ==> r == len
    ensures end < 0 && len + end >= 0 ==> r == len + end
    ensures len + end < 0 ==> r == 0
  {
    if end < 0 then (if len + end > 0 then len + end else 0)
    else if end < len then end
    else len
  }

  /** `steps.slice(0, index + 1)`: the steps up to and including the cursor. */
  function Prefix(steps: seq<Step>, index: int): (r: seq<Step>)
    ensures |r| <= |steps| && r == steps[..|r|]
  {
    steps[..SliceEnd(|steps|, index + 1)]
  }

  /** The computed state at cursor `index`; `None` when there is no game data, no cards or no squad. */
  function StateAt(gameSteps: Option<seq<Step>>, squads: seq<Squad>, cards: Option<Catalog>, index: int, ext: Unshown): (r: Option<State>)
    ensures r.None? <==> gameSteps.None? || cards.None? || |squads| == 0
  {
    if gameSteps.None? || cards.None? || |squads| == 0 then None
    else Some(CalculateGameState(Prefix(gameSteps.value, index), squads, cards.value, ext))
  }

  /** Moving the cursor from `k` to `k + 1` inside the log applies exactly one more step. */
  lemma CursorStep(steps: seq<Step>, squads: seq<Squad>, cat: Catalog, k: int, ext: Unshown)
    requires |squads| > 0
    requires -1 <= k && k + 1 < |steps|
    ensures StateAt(Some(steps), squads, Some(cat), k + 1, ext).Some?
    ensures StateAt(Some(steps), squads, Some(cat), k, ext).Some?
    ensures StateAt(Some(steps), squads, Some(cat), k + 1, ext).value
         == Apply(StateAt(Some(steps), squads, Some(cat), k, ext).value, steps[k + 1], squads, cat, ext)
  {
    assert Prefix(steps, k + 1) == Prefix(steps, k) + [steps[k + 1]];
    ReplaySnoc(Initial(), Prefix(steps, k), steps[k + 1], squads, cat, ext);
  }

  /** A cursor on or past the last step shows the state of the whole log. */
  lemma CursorPastEnd(steps: seq<Step>, squads: seq<Squad>, cat: Catalog, k: int, ext: Unshown)
    requires |squads| > 0
    requires k >= |steps| - 1
    ensures StateAt(Some(steps), squads, Some(cat), k, ext) == Some(CalculateGameState(steps, squads, cat, ext))
  {
    assert Prefix(steps, k) == steps;
  }

  /** The cursor at -1 shows the zero state, and a cursor below -1 counts back from the end of the log. */
  lemma CursorNegative(steps: seq<Step>, squads: seq<Squad>, cat: Catalog, k: int, ext: Unshown)
    requires |squads| > 0
    requires k < 0
    ensures k == -1 ==> StateAt(Some(steps), squads, Some(cat), k, ext) == Some(Initial())
    ensures k < -1 && |steps| + k + 1 > 0 ==>
              StateAt(Some(steps), squads, Some(cat), k, ext) == Some(CalculateGameState(steps[..|steps| + k + 1], squads, cat, ext))
  {
  }
}
