/**
 * Summary of the client's own last operation: after a status update the
 * client scans the reported operations, skips the environment actions,
 * stops at the first operation of a character that is not its own, and
 * records whether its own operation succeeded and, for an observation,
 * whether the observed character is an enemy.
 */
module GameStateModel {
  import opened SpyTypes

  datatype OperationEnum =
    | INVALID | GADGET_ACTION | SPY_ACTION | GAMBLE_ACTION | PROPERTY_ACTION
    | MOVEMENT | CAT_ACTION | JANITOR_ACTION | EXFILTRATION | RETIRE

  /** A reported game operation, one variant per operation kind. */
  datatype Operation =
    | GadgetAction(characterId: UUID, successful: bool, target: Point)
    | SpyAction(characterId: UUID, successful: bool, target: Point)
    | GambleAction(characterId: UUID, successful: bool, target: Point)
    | PropertyAction(characterId: UUID, successful: bool, target: Point,
                     usedProperty: PropertyEnum, isEnemy: Option<bool>)
    | Movement(characterId: UUID, successful: bool, target: Point)
    | RetireAction(characterId: UUID, successful: bool, target: Point)
    | Exfiltration(characterId: UUID, successful: bool, target: Point)
    | CatAction(successful: bool, target: Point)
    | JanitorAction(successful: bool, target: Point)
  {
    function OperationType(): OperationEnum
    {
      match this
      case GadgetAction(_, _, _) => GADGET_ACTION
      case SpyAction(_, _, _) => SPY_ACTION
      case GambleAction(_, _, _) => GAMBLE_ACTION
      case PropertyAction(_, _, _, _, _) => PROPERTY_ACTION
      case Movement(_, _, _) => MOVEMENT
      case RetireAction(_, _, _) => RETIRE
      case Exfiltration(_, _, _) => EXFILTRATION
      case CatAction(_, _) => CAT_ACTION
      case JanitorAction(_, _) => JANITOR_ACTION
    }
  }

  /** The two fields the summary maintains. */
  datatype Outcome = Outcome(lastOpSuccessful: bool, isEnemy: Option<(bool, UUID)>)

  /** Environment actions and exfiltrations are passed over. */
  predicate IsSkipped(op: Operation)
  {
    op.OperationType() == CAT_ACTION || op.OperationType() == JANITOR_ACTION
    || op.OperationType() == EXFILTRATION
  }

  /** An observation whose result was reported. */
  predicate IsObservationResult(op: Operation)
  {
    op.PropertyAction? && op.usedProperty == OBSERVATION && op.isEnemy.Some?
  }

  predicate HasCharacterAt(cs: seq<Character>, p: Point)
  {
    exists k :: 0 <= k < |cs| && cs[k].coordinates == p
  }

  /**
   * Every observation result the scan reaches points at a square where a
   * character stands: the scan follows `Summarise` and stops where it stops.
   */
  predicate LookupsDefined(ops: seq<Operation>, chosen: seq<UUID>, cs: seq<Character>)
    decreases |ops|
  {
    if ops == [] then true
    else
      var op := ops[0];
      if IsSkipped(op) then LookupsDefined(ops[1..], chosen, cs)
      else if op.characterId !in chosen then true
      else if op.PropertyAction? && op.usedProperty != OBSERVATION then true
      else (IsObservationResult(op) ==> HasCharacterAt(cs, op.target)) && LookupsDefined(ops[1..], chosen, cs)
  }

  /** The id of the first character standing at `p`. */
  function CharacterIdAt(cs: seq<Character>, p: Point): (id: UUID)
    requires HasCharacterAt(cs, p)
    ensures exists k :: 0 <= k < |cs| && cs[k].coordinates == p && cs[k].characterId == id
  {
    if cs[0].coordinates == p then cs[0].characterId
    else
      assert HasCharacterAt(cs[1..], p) by {
        var k :| 0 <= k < |cs| && cs[k].coordinates == p;
        assert cs[1..][k - 1] == cs[k];
      }
      var id := CharacterIdAt(cs[1..], p);
      ghost var k :| 0 <= k < |cs| - 1 && cs[1..][k].coordinates == p && cs[1..][k].characterId == id;
      assert cs[k + 1] == cs[1..][k];
      id
  }

  /** The values an own operation of the client leaves behind. */
  function OwnOutcome(op: Operation, cs: seq<Character>): Outcome
    requires IsObservationResult(op) ==> HasCharacterAt(cs, op.target)
  {
    if IsObservationResult(op)
    then Outcome(op.successful, Some((op.isEnemy.value, CharacterIdAt(cs, op.target))))
    else Outcome(op.successful, None)
  }

  /** Processing stops at a foreign operation or at an own non-observation property use. */
  predicate Halts(op: Operation, chosen: seq<UUID>)
  {
    !IsSkipped(op)
    && (op.characterId !in chosen || (op.PropertyAction? && op.usedProperty != OBSERVATION))
  }

  /** The summary left by processing `ops` from the values `st`. */
  function Summarise(ops: seq<Operation>, chosen: seq<UUID>, cs: seq<Character>, st: Outcome): Outcome
    requires LookupsDefined(ops, chosen, cs)
    decreases |ops|
  {
    if ops == [] then st
    else
      var op := ops[0];
      if IsSkipped(op) then Summarise(ops[1..], chosen, cs, st)
      else if op.characterId !in chosen then st
      else if op.PropertyAction? && op.usedProperty != OBSERVATION then OwnOutcome(op, cs)
      else Summarise(ops[1..], chosen, cs, OwnOutcome(op, cs))
  }

  /** With no operations reported, both values keep what they held. */
  lemma NoOperationsNoChange(chosen: seq<UUID>, cs: seq<Character>, st: Outcome)
    ensures Summarise([], chosen, cs, st) == st
  {
  }

  /** The operations that are not skipped, in order. */
  function Unskipped(ops: seq<Operation>): (r: seq<Operation>)
    ensures forall op :: op in r ==> op in ops && !IsSkipped(op)
    ensures forall op :: op in ops && !IsSkipped(op) ==> op in r
    ensures forall op :: multiset(r)[op] == if IsSkipped(op) then 0 else multiset(ops)[op]
  {
    if ops == [] then []
    else
      assert ops == [ops[0]] + ops[1..];
      if IsSkipped(ops[0]) then Unskipped(ops[1..])
      else [ops[0]] + Unskipped(ops[1..])
  }

  /** Cat, janitor and exfiltration entries have no effect on the summary. */
  lemma {:induction false} SkippedOperationsHaveNoEffect(ops: seq<Operation>, chosen: seq<UUID>,
                                                        cs: seq<Character>, st: Outcome)
    requires LookupsDefined(ops, chosen, cs)
    ensures LookupsDefined(Unskipped(ops), chosen, cs)
    ensures Summarise(ops, chosen, cs, st) == Summarise(Unskipped(ops), chosen, cs, st)
  {
    if ops != [] {
      if IsSkipped(ops[0]) {
        SkippedOperationsHaveNoEffect(ops[1..], chosen, cs, st);
      } else {
        var rest := Unskipped(ops[1..]);
        assert ([ops[0]] + rest)[1..] == rest;
        if ops[0].characterId in chosen && !(ops[0].PropertyAction? && ops[0].usedProperty != OBSERVATION) {
          SkippedOperationsHaveNoEffect(ops[1..], chosen, cs, OwnOutcome(ops[0], cs));
        }
      }
    }
  }

  /**
   * A halting operation ends processing: nothing reported after it has any
   * effect.
   */
  lemma {:induction false} HaltingOperationEndsProcessing(pre: seq<Operation>, op: Operation, post: seq<Operation>,
                                                         chosen: seq<UUID>, cs: seq<Character>, st: Outcome)
    requires Halts(op, chosen)
    requires LookupsDefined(pre + [op] + post, chosen, cs)
    ensures LookupsDefined(pre + [op], chosen, cs)
    ensures Summarise(pre + [op] + post, chosen, cs, st) == Summarise(pre + [op], chosen, cs, st)
  {
    if pre == [] {
      assert [op] + post == pre + [op] + post;
      assert ([op] + post)[0] == op && [op][0] == op;
    } else {
      var p := pre[0];
      assert (pre + [op] + post)[0] == p && (pre + [op])[0] == p;
      assert (pre + [op] + post)[1..] == pre[1..] + [op] + post;
      assert (pre + [op])[1..] == pre[1..] + [op];
      if !IsSkipped(p) && p.characterId in chosen && !(p.PropertyAction? && p.usedProperty != OBSERVATION) {
        HaltingOperationEndsProcessing(pre[1..], op, post, chosen, cs, OwnOutcome(p, cs));
      } else if IsSkipped(p) {
        HaltingOperationEndsProcessing(pre[1..], op, post, chosen, cs, st);
      }
    }
  }

  /**
   * A foreign operation ends processing and leaves the values set by the
   * operations before it.
   */
  lemma {:induction false} ForeignOperationKeepsEarlierValues(pre: seq<Operation>, op: Operation, post: seq<Operation>,
                                                             chosen: seq<UUID>, cs: seq<Character>, st: Outcome)
    requires !IsSkipped(op) && op.characterId !in chosen
    requires LookupsDefined(pre + [op] + post, chosen, cs)
    ensures LookupsDefined(pre, chosen, cs)
    ensures Summarise(pre + [op] + post, chosen, cs, st) == Summarise(pre, chosen, cs, st)
  {
    if pre == [] {
      assert ([op] + post)[0] == op;
      assert [op] + post == pre + [op] + post;
    } else {
      var p := pre[0];
      assert (pre + [op] + post)[0] == p;
      assert (pre + [op] + post)[1..] == pre[1..] + [op] + post;
      if !IsSkipped(p) && p.characterId in chosen && !(p.PropertyAction? && p.usedProperty != OBSERVATION) {
        ForeignOperationKeepsEarlierValues(pre[1..], op, post, chosen, cs, OwnOutcome(p, cs));
      } else if IsSkipped(p) {
        ForeignOperationKeepsEarlierValues(pre[1..], op, post, chosen, cs, st);
      }
    }
  }

  /**
   * When no earlier operation halts, an own operation followed only by
   * skipped entries decides both values: its success flag and, for an
   * observation with a result, the result paired with the observed
   * character; otherwise no enemy information.
   */
  lemma {:induction false} LastOwnOperationDecides(pre: seq<Operation>, op: Operation, post: seq<Operation>,
                                                  chosen: seq<UUID>, cs: seq<Character>, st: Outcome)
    requires forall p :: p in pre ==> !Halts(p, chosen)
    requires !IsSkipped(op) && op.characterId in chosen
    requires forall p :: p in post ==> IsSkipped(p)
    requires LookupsDefined(pre + [op] + post, chosen, cs)
    ensures IsObservationResult(op) ==> HasCharacterAt(cs, op.target)
    ensures Summarise(pre + [op] + post, chosen, cs, st) == OwnOutcome(op, cs)
  {
    var all := pre + [op] + post;
    assert all[|pre|] == op;
    if pre == [] {
      assert all[0] == op && all[1..] == post;
      SkippedOnly(post, chosen, cs, OwnOutcome(op, cs));
    } else {
      var p := pre[0];
      assert p in pre;
      assert all[0] == p && all[1..] == pre[1..] + [op] + post;
      if IsSkipped(p) {
        LastOwnOperationDecides(pre[1..], op, post, chosen, cs, st);
      } else {
        LastOwnOperationDecides(pre[1..], op, post, chosen, cs, OwnOutcome(p, cs));
      }
    }
  }

  /** A list of skipped entries changes nothing. */
  lemma {:induction false} SkippedOnly(ops: seq<Operation>, chosen: seq<UUID>, cs: seq<Character>, st: Outcome)
    requires forall p :: p in ops ==> IsSkipped(p)
    ensures LookupsDefined(ops, chosen, cs)
    ensures Summarise(ops, chosen, cs, st) == st
  {
    if ops != [] {
      assert ops[0] in ops;
      SkippedOnly(ops[1..], chosen, cs, st);
    }
  }

  /**
   * New enemy information only ever comes from an own observation with a
   * reported result, and names the character standing at its target.
   */
  lemma {:induction false} EnemyInformationComesFromObservation(ops: seq<Operation>, chosen: seq<UUID>,
                                                               cs: seq<Character>, st: Outcome)
    requires LookupsDefined(ops, chosen, cs)
    ensures var r := Summarise(ops, chosen, cs, st);
      r.isEnemy.Some? && r.isEnemy != st.isEnemy ==>
        exists op :: op in ops && IsObservationResult(op) && op.characterId in chosen
          && HasCharacterAt(cs, op.target)
          && r.isEnemy == Some((op.isEnemy.value, CharacterIdAt(cs, op.target)))
  {
    if ops != [] {
      var op := ops[0];
      var r := Summarise(ops, chosen, cs, st);
      if IsSkipped(op) {
        EnemyInformationComesFromObservation(ops[1..], chosen, cs, st);
      } else if op.characterId in chosen && !(op.PropertyAction? && op.usedProperty != OBSERVATION) {
        var o := OwnOutcome(op, cs);
        EnemyInformationComesFromObservation(ops[1..], chosen, cs, o);
        if r.isEnemy.Some? && r.isEnemy != st.isEnemy && r.isEnemy == o.isEnemy {
          assert op in ops;
        }
      }
    }
  }

  class GameState {
    var chosenCharacter: seq<UUID>
    var operations: seq<Operation>
    const state: State
    var lastOpSuccessful: bool
    var isEnemy: Option<(bool, UUID)>

    constructor (s: State)
      ensures state == s && chosenCharacter == [] && operations == []
      ensures !lastOpSuccessful && isEnemy == None
    {
      state := s;
      chosenCharacter, operations := [], [];
      lastOpSuccessful, isEnemy := false, None;
    }

    /**
     * Scans the reported operations and records the summary of the client's
     * own last operation. The operation list is only read.
     */
    method HandleLastClientOperation()
      requires LookupsDefined(operations, chosenCharacter, state.characters)
      modifies this`lastOpSuccessful, this`isEnemy
      ensures Outcome(lastOpSuccessful, isEnemy)
        == Summarise(operations, chosenCharacter, state.characters, Outcome(old(lastOpSuccessful), old(isEnemy)))
    {
      var ops := operations;
      ghost var cs := state.characters;
      ghost var start := Outcome(lastOpSuccessful, isEnemy);
      if |ops| == 0 {
        return;
      }
      var i := 0;
      while i < |ops|
        invariant 0 <= i <= |ops|
        invariant LookupsDefined(ops[i..], chosenCharacter, cs)
        invariant Summarise(ops[i..], chosenCharacter, cs, Outcome(lastOpSuccessful, isEnemy))
          == Summarise(ops, chosenCharacter, cs, start)
      {
        var op := ops[i];
        assert ops[i..][0] == op && ops[i..][1..] == ops[i + 1..];
        if IsSkipped(op) {
          i := i + 1;
          continue;
        }
        var characterId := op.characterId;
        var own := false;
        for j := 0 to |chosenCharacter|
          invariant own == (characterId in chosenCharacter[..j])
        {
          if chosenCharacter[j] == characterId {
            own := true;
            break;
          }
        }
        assert chosenCharacter[..|chosenCharacter|] == chosenCharacter;
        if !own {
          return;
        }
        lastOpSuccessful := op.successful;
        isEnemy := None;
        if op.PropertyAction? {
          if op.usedProperty != OBSERVATION {
            return;
          }
          if op.isEnemy.Some? {
            var enemy := op.isEnemy.value;
            var id := CharacterIdAt(state.characters, op.target);
            isEnemy := Some((enemy, id));
          }
        }
        i := i + 1;
      }
    }
  }
}
