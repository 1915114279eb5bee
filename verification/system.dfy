/** The parts of `MarbleSystem` that compute rather than talk to the page or the server:
    the diff between the counts stored from the previous refresh and the counts just
    received, and undoing the current user's last marble. */
module MarbleSystems {
  import opened Jars

  datatype Option<T> = None | Some(value: T)

  /** What a refresh brought: whether the current user gained a marble (and then who
      that user is), and how many marbles each owner gained. */
  datatype Changes = Changes(userGotMarble: bool, user: Option<string>, marblesAdded: map<string, int>)

  /** `previous[owner] || 0`: the stored count, 0 for an owner not stored. */
  function PreviousCount(previous: map<string, int>, owner: string): (n: int)
    ensures owner !in previous ==> n == 0
    ensures owner in previous ==> n == previous[owner]
  {
    if owner in previous then previous[owner] else 0
  }

  /** `detectChanges(previous, current)` for the user `currentUser` (`None` before the
      first refresh): every owner in `current` gets the marbles it gained, never a
      negative number; the user flag is raised when the current user gained any. */
  function DetectChanges(previous: map<string, int>, current: map<string, int>, currentUser: Option<string>): (c: Changes)
    ensures c.marblesAdded.Keys == current.Keys
    ensures forall o :: o in current ==> c.marblesAdded[o] >= 0
    ensures c.user == if c.userGotMarble then currentUser else None
  {
    var added := map o | o in current :: Gain(current[o] - PreviousCount(previous, o));
    var got := currentUser.Some? && currentUser.value in current &&
               current[currentUser.value] - PreviousCount(previous, currentUser.value) > 0;
    Changes(got, if got then currentUser else None, added)
  }

  /** `Math.max(0, added)`. */
  function Gain(added: int): (n: nat)
    ensures added > 0 ==> n == added
    ensures added <= 0 ==> n == 0
  {
    if added > 0 then added else 0
  }

  /** An owner's gain is positive exactly when its count went up, and then it is
      exactly the difference; an owner whose count stayed or dropped gained nothing. */
  lemma GainIsIncrease(previous: map<string, int>, current: map<string, int>, currentUser: Option<string>, o: string)
    requires o in current
    ensures var c := DetectChanges(previous, current, currentUser);
      && (c.marblesAdded[o] > 0 <==> current[o] > PreviousCount(previous, o))
      && (c.marblesAdded[o] > 0 ==> PreviousCount(previous, o) + c.marblesAdded[o] == current[o])
  {
  }

  /** The current user is reported exactly when it is an owner in `current` whose
      gain is positive. */
  lemma UserFlagIffGain(previous: map<string, int>, current: map<string, int>, currentUser: Option<string>)
    ensures var c := DetectChanges(previous, current, currentUser);
      c.userGotMarble <==>
        currentUser.Some? && currentUser.value in current && c.marblesAdded[currentUser.value] > 0
  {
  }

  /** A refresh that brings the counts already stored reports no gain at all. */
  lemma NoChangeNoGain(counts: map<string, int>, currentUser: Option<string>)
    ensures var c := DetectChanges(counts, counts, currentUser);
      !c.userGotMarble && c.user == None && forall o :: o in counts ==> c.marblesAdded[o] == 0
  {
  }

  /** On the first refresh nothing is stored, so every owner gains its whole positive
      count. */
  lemma FirstRefreshGainsAll(current: map<string, int>, currentUser: Option<string>)
    ensures var c := DetectChanges(map[], current, currentUser);
      forall o :: o in current && current[o] > 0 ==> c.marblesAdded[o] == current[o]
  {
  }

  /** JavaScript truthiness of the current user: `null` and the empty name are falsy. */
  predicate Truthy(user: Option<string>) {
    user.Some? && user.value != ""
  }

  class MarbleSystem {
    var jars: map<string, OwnerJar>
    var currentUser: Option<string>

    /** Every jar holds each of its marbles once. */
    predicate Valid()
      reads this, jars.Values
    {
      forall o :: o in jars ==> jars[o].Valid()
    }

    /** The jar `undoLastMarble` pops from, if any: the current user's, when the user
        is truthy, owns a jar, and that jar is not empty. */
    function UndoTarget(): (r: Option<OwnerJar>)
      reads this, jars.Values
      ensures r.Some? ==> r.value in jars.Values && |r.value.marbles| > 0
    {
      if Truthy(currentUser) && currentUser.value in jars && |jars[currentUser.value].marbles| > 0
      then Some(jars[currentUser.value])
      else None
    }

    /** `undoLastMarble`: the last marble of the current user's jar is removed when
        there is one; every other jar, and that jar when empty, is left as it was. */
    method UndoLastMarble()
      requires Valid()
      modifies jars.Values`marbles
      ensures Valid() && jars == old(jars) && currentUser == old(currentUser)
      ensures forall j :: j in jars.Values ==>
        j.marbles == if old(UndoTarget()) == Some(j) then old(j.marbles)[..|old(j.marbles)| - 1] else old(j.marbles)
    {
      if Truthy(currentUser) && currentUser.value in jars {
        var userJar := jars[currentUser.value];
        if |userJar.marbles| > 0 {
          userJar.marbles := userJar.marbles[..|userJar.marbles| - 1];
        }
      }
    }
  }
}
