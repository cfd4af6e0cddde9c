/** Where `init` inserts a new container: it looks through the scene's
    children for the map's spriteset and, when there is none, adds the
    container to the scene itself. A scene's children are reduced to
    whether each one is the map's spriteset. */
module Placement {

  import opened Wrappers

  /** How far the search for the map's spriteset got. */
  datatype Progress = Found(index: nat) | NotFound | StillSearching

  /** The search as written: its loop condition is the scene's child count
      itself, which stays true while the scene has any child at all, rather
      than the index being below that count. `steps` bounds how many
      iterations are followed; a search that has not finished within it is
      `StillSearching`. */
  function SearchAsWritten(isMap: seq<bool>, i: nat, steps: nat): (s: Progress)
    ensures s.Found? ==> i <= s.index < |isMap| && isMap[s.index]
    ensures s.NotFound? <==> |isMap| == 0
    decreases steps
  {
    if |isMap| == 0 then NotFound
    else if steps == 0 then StillSearching
    else if i < |isMap| && isMap[i] then Found(i)
    else SearchAsWritten(isMap, i + 1, steps - 1)
  }

  /** On a scene that has children but no map spriteset (a battle scene,
      say) the search as written never finishes, however many iterations
      are allowed: once the index passes the last child there is nothing
      left to find and the condition is still true. */
  lemma {:induction false} AsWrittenNeverFinishes(isMap: seq<bool>, i: nat, steps: nat)
    requires |isMap| > 0
    requires forall k :: 0 <= k < |isMap| ==> !isMap[k]
    ensures SearchAsWritten(isMap, i, steps) == StillSearching
    decreases steps
  {
    if steps > 0 {
      AsWrittenNeverFinishes(isMap, i + 1, steps - 1);
    }
  }

  /** On a scene that does have a map spriteset the search as written
      finishes, and finds the first one, once it is allowed one iteration
      per child up to and including that spriteset. */
  lemma {:induction false} AsWrittenFindsMap(isMap: seq<bool>, i: nat, steps: nat)
    requires FindMap(isMap, i).Some?
    requires FindMap(isMap, i).value - i < steps
    ensures SearchAsWritten(isMap, i, steps) == Found(FindMap(isMap, i).value)
    decreases steps
  {
    if !isMap[i] {
      AsWrittenFindsMap(isMap, i + 1, steps - 1);
    }
  }

  /** The search as intended: the loop stops once the index reaches the
      child count. */
  function FindMap(isMap: seq<bool>, i: nat): (r: Option<nat>)
    ensures r.Some? ==> i <= r.value < |isMap| && isMap[r.value]
    decreases |isMap| - i
  {
    if i >= |isMap| then None
    else if isMap[i] then Some(i)
    else FindMap(isMap, i + 1)
  }

  /** The intended search finds the first map spriteset at or after `i`,
      and reports none exactly when there is none. */
  lemma {:induction false} FindMapFindsFirst(isMap: seq<bool>, i: nat)
    ensures var r := FindMap(isMap, i);
            && (r.None? <==> forall k :: i <= k < |isMap| ==> !isMap[k])
            && (r.Some? ==> forall k :: i <= k < r.value ==> !isMap[k])
    decreases |isMap| - i
  {
    if i < |isMap| && !isMap[i] {
      FindMapFindsFirst(isMap, i + 1);
    }
  }

  /** Whenever the search as written does finish within its budget, it
      agrees with the intended search. */
  lemma {:induction false} AsWrittenAgreesWhenFinished(isMap: seq<bool>, i: nat, steps: nat)
    requires SearchAsWritten(isMap, i, steps) != StillSearching
    ensures match SearchAsWritten(isMap, i, steps)
            case Found(k) => FindMap(isMap, i) == Some(k)
            case _ => FindMap(isMap, i) == None
    decreases steps
  {
    if |isMap| > 0 && steps > 0 && !(i < |isMap| && isMap[i]) {
      AsWrittenAgreesWhenFinished(isMap, i + 1, steps - 1);
    }
  }

}
