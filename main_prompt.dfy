/**
 * The interactive prompt's integer validator. The text the user types is
 * given as a sequence of tokens already passed through int(): `None` is text
 * int() rejects.
 */
module MainPrompt {
  import opened Wrappers

  /** The only simulation time units the prompt accepts (SIM_TIME_UNIT). */
  const SimTimeUnits: seq<int> := [1, 2, 5, 10]

  /** Python truthiness of an Optional[List[int]]: None and [] are false. */
  predicate IsTruthy(selections: Option<seq<int>>) {
    selections.Some? && selections.value != []
  }

  /** A parsed value is kept when positive and, given a non-empty list, listed in it. */
  predicate Accepts(val: int, selections: Option<seq<int>>) {
    val > 0 && (IsTruthy(selections) ==> val in selections.value)
  }

  predicate AcceptsToken(token: Option<int>, selections: Option<seq<int>>) {
    token.Some? && Accepts(token.value, selections)
  }

  /**
   * get_integer: reads tokens until the first acceptable one and returns it;
   * every earlier token was rejected. If the input runs out first, input()
   * raises EOFError, which the loop does not catch: the result is None.
   */
  method GetInteger(inputs: seq<Option<int>>, selections: Option<seq<int>>)
    returns (r: Option<int>, consumed: nat)
    ensures consumed <= |inputs|
    ensures r.Some? ==> 0 < consumed && inputs[consumed - 1] == r && Accepts(r.value, selections)
    ensures r.Some? ==> forall j :: 0 <= j < consumed - 1 ==> !AcceptsToken(inputs[j], selections)
    ensures r.None? ==> consumed == |inputs|
    ensures r.None? ==> forall j :: 0 <= j < |inputs| ==> !AcceptsToken(inputs[j], selections)
  {
    consumed := 0;
    while consumed < |inputs|
      invariant consumed <= |inputs|
      invariant forall j :: 0 <= j < consumed ==> !AcceptsToken(inputs[j], selections)
    {
      var token := inputs[consumed];
      consumed := consumed + 1;
      match token {
        case None =>
          // int() raised ValueError: the prompt is repeated
        case Some(val) =>
          if val > 0 {
            if IsTruthy(selections) {
              if val in selections.value {
                return Some(val), consumed;
              }
            } else {
              return Some(val), consumed;
            }
          }
      }
    }
    return None, consumed;
  }

  /** Without a non-empty selection list every positive integer is accepted as it is. */
  lemma FalsySelectionsAcceptPositive(val: int)
    ensures Accepts(val, None) <==> val > 0
    ensures Accepts(val, Some([])) <==> val > 0
  {
  }

  /** The simulation time unit prompt: whatever it returns is 1, 2, 5 or 10. */
  method GetSimTimeUnit(inputs: seq<Option<int>>) returns (r: Option<int>, consumed: nat)
    ensures r.Some? ==> r.value in {1, 2, 5, 10}
    ensures r.None? ==> forall j :: 0 <= j < |inputs| ==> !AcceptsToken(inputs[j], Some(SimTimeUnits))
  {
    r, consumed := GetInteger(inputs, Some(SimTimeUnits));
  }
}
