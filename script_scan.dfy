/**
 * The scan every extractor starts with: walk the page's script texts in
 * document order and stop at the first one that passes a test (contains the
 * marker, splits, parses, ...).
 */
module ScriptScan {
  import opened Wrappers

  /** Index of the first script at or after `from` that satisfies `p`. */
  function FirstFrom(scripts: seq<string>, p: string -> bool, from: nat): (r: Option<nat>)
    decreases |scripts| - from
    ensures r.Some? ==> from <= r.value < |scripts| && p(scripts[r.value])
    ensures r.Some? ==> forall k :: from <= k < r.value ==> !p(scripts[k])
    ensures r.None? <==> forall k :: from <= k < |scripts| ==> !p(scripts[k])
  {
    if |scripts| <= from then None
    else if p(scripts[from]) then Some(from)
    else FirstFrom(scripts, p, from + 1)
  }

  /** Index of the first script that satisfies `p`, None when there is none. */
  function First(scripts: seq<string>, p: string -> bool): (r: Option<nat>)
    ensures r.Some? ==> r.value < |scripts| && p(scripts[r.value])
    ensures r.Some? ==> forall k :: 0 <= k < r.value ==> !p(scripts[k])
    ensures r.None? <==> forall k :: 0 <= k < |scripts| ==> !p(scripts[k])
  {
    FirstFrom(scripts, p, 0)
  }

  /** Scripts after the first hit never matter. */
  lemma FirstOfPrefix(scripts: seq<string>, p: string -> bool, n: nat)
    requires First(scripts, p).Some? && First(scripts, p).value < n <= |scripts|
    ensures First(scripts[..n], p) == First(scripts, p)
  {
    var i := First(scripts, p).value;
    assert scripts[..n][i] == scripts[i];
    assert forall k :: 0 <= k < i ==> scripts[..n][k] == scripts[k];
  }

  /** One pass of a loop body over a script: the new state, and whether the loop breaks. */
  datatype Step<S> = Step(state: S, done: bool)

  /**
   * A loop over the first `n` scripts whose body may `continue` (done false)
   * or `break` (done true); the scripts after a break are not looked at.
   */
  function Scan<S>(s: S, scripts: seq<string>, step: (S, string) -> Step<S>, n: nat): Step<S>
    requires n <= |scripts|
  {
    if n == 0 then Step(s, false)
    else
      var prev := Scan(s, scripts, step, n - 1);
      if prev.done then prev else step(prev.state, scripts[n - 1])
  }

  /** Once a pass has broken out of the loop, later scripts change nothing. */
  lemma {:induction false} ScanDonePersists<S>(s: S, scripts: seq<string>, step: (S, string) -> Step<S>, j: nat, n: nat)
    requires j <= n <= |scripts| && Scan(s, scripts, step, j).done
    ensures Scan(s, scripts, step, n) == Scan(s, scripts, step, j)
    decreases n - j
  {
    if j < n {
      ScanDonePersists(s, scripts, step, j, n - 1);
    }
  }

  /** One more pass of the loop. */
  lemma ScanNext<S>(s: S, scripts: seq<string>, step: (S, string) -> Step<S>, i: nat)
    requires i < |scripts| && !Scan(s, scripts, step, i).done
    ensures Scan(s, scripts, step, i + 1) == step(Scan(s, scripts, step, i).state, scripts[i])
  {
  }
}
