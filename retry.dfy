/**
 * The attempt loop shared by the transcription call (transcription.js) and the
 * generation call (minutes_generator.js): each attempt asks the key bank for a
 * key, passing the model that last answered 503 as a hint, then calls the model.
 * The network is an oracle: given the attempt number and the hint it answers
 * with a scripted outcome.
 */
module Retry {
  import opened Text

  /** What one attempt of the key-bank and model round trip ends in. */
  datatype Attempt =
    | Reply(text: string)        // the model answered; its first candidate's text
    | Unavailable(model: string) // the model the bank handed out answered 503
    | Failure                    // the bank refused, the model sent an error body, or a reply could not be read

  /** One attempt as the network sees it: the hint sent to the key bank and the outcome. */
  datatype Call = Call(hint: Option<string>, outcome: Attempt)

  /** The scripted network: attempt number (from 1) and hint to outcome. */
  type Oracle = (nat, Option<string>) -> Attempt

  /** The hint that `previousModel` adds to the bank URL: nothing while it is null or empty. */
  function HintOf(previousModel: string): (h: Option<string>)
    ensures h.Some? <==> previousModel != ""
  {
    if previousModel == "" then None else Some(previousModel)
  }

  /** The hint the attempt after `c` sends: a 503 replaces it, any other failure keeps it. */
  function NextHint(c: Call): Option<string> {
    if c.outcome.Unavailable? then HintOf(c.outcome.model) else c.hint
  }

  /**
   * The calls that `for (attempt = ...; attempt <= maxRetries; attempt++)` makes from
   * `attempt` on, with `previousModel` as it stands: a reply returns, a 503 records the
   * model and continues, and any other failure retries (on the last attempt the loop then
   * ends, and the caller decides what that means).
   */
  function Calls(respond: Oracle, attempt: nat, maxRetries: int, previousModel: string): seq<Call>
    decreases maxRetries - attempt
  {
    if attempt == 0 || attempt > maxRetries then
      []
    else
      var hint := HintOf(previousModel);
      var outcome := respond(attempt, hint);
      [Call(hint, outcome)] +
        match outcome
        case Reply(_) => []
        case Unavailable(m) => Calls(respond, attempt + 1, maxRetries, m)
        case Failure => Calls(respond, attempt + 1, maxRetries, previousModel)
  }

  /** One unfolding of `Calls` at an attempt inside the bound. */
  lemma CallsStep(respond: Oracle, attempt: nat, maxRetries: int, previousModel: string)
    requires 1 <= attempt <= maxRetries
    ensures var hint := HintOf(previousModel);
      var outcome := respond(attempt, hint);
      var cs := Calls(respond, attempt, maxRetries, previousModel);
      && (outcome.Reply? ==> cs == [Call(hint, outcome)])
      && (outcome.Unavailable? ==> cs == [Call(hint, outcome)] + Calls(respond, attempt + 1, maxRetries, outcome.model))
      && (outcome.Failure? ==> cs == [Call(hint, outcome)] + Calls(respond, attempt + 1, maxRetries, previousModel))
  {
  }

  /** A loop that has made `before` and now makes one more call stays on the course of `whole`. */
  lemma CallsExtend(before: seq<Call>, respond: Oracle, attempt: nat, maxRetries: int, previousModel: string, whole: seq<Call>)
    requires 1 <= attempt <= maxRetries
    requires before + Calls(respond, attempt, maxRetries, previousModel) == whole
    ensures var hint := HintOf(previousModel);
      var outcome := respond(attempt, hint);
      var calls := before + [Call(hint, outcome)];
      && (outcome.Reply? ==> calls == whole)
      && (outcome.Unavailable? ==> calls + Calls(respond, attempt + 1, maxRetries, outcome.model) == whole)
      && (outcome.Failure? ==> calls + Calls(respond, attempt + 1, maxRetries, previousModel) == whole)
      && (attempt == maxRetries ==> Calls(respond, attempt + 1, maxRetries, previousModel) == [])
  {
    CallsStep(respond, attempt, maxRetries, previousModel);
    var hint := HintOf(previousModel);
    var outcome := respond(attempt, hint);
    var c := Call(hint, outcome);
    if outcome.Reply? {
      AppendOne(before, c, [], whole);
    } else {
      var next := if outcome.Unavailable? then outcome.model else previousModel;
      AppendOne(before, c, Calls(respond, attempt + 1, maxRetries, next), whole);
    }
  }

  /** Moving one call from the rest of a run to the calls already made. */
  lemma AppendOne(before: seq<Call>, c: Call, rest: seq<Call>, whole: seq<Call>)
    requires before + ([c] + rest) == whole
    ensures (before + [c]) + rest == whole
    ensures rest == [] ==> before + [c] == whole
  {
    assert before + ([c] + rest) == (before + [c]) + rest;
  }

  /** The calls one invocation makes: from attempt 1 with no previous model. */
  function Run(respond: Oracle, maxRetries: int): seq<Call> {
    Calls(respond, 1, maxRetries, "")
  }

  /**
   * At most `maxRetries` attempts are made, at least one when `maxRetries >= 1`; only the
   * last call can be a reply; a run that ends without a reply used every attempt.
   */
  lemma {:induction false} CallsBounded(respond: Oracle, attempt: nat, maxRetries: int, previousModel: string)
    requires attempt >= 1
    ensures var cs := Calls(respond, attempt, maxRetries, previousModel);
      && |cs| <= (if attempt <= maxRetries then maxRetries - attempt + 1 else 0)
      && (attempt <= maxRetries <==> cs != [])
      && (forall i :: 0 <= i < |cs| - 1 ==> !cs[i].outcome.Reply?)
      && (cs != [] && !cs[|cs| - 1].outcome.Reply? ==> |cs| == maxRetries - attempt + 1)
    decreases maxRetries - attempt
  {
    var cs := Calls(respond, attempt, maxRetries, previousModel);
    if attempt <= maxRetries {
      var hint := HintOf(previousModel);
      match respond(attempt, hint)
      case Reply(_) =>
      case Unavailable(m) =>
        CallsBounded(respond, attempt + 1, maxRetries, m);
      case Failure =>
        CallsBounded(respond, attempt + 1, maxRetries, previousModel);
    }
  }

  /**
   * The hint protocol: the first call sends the hint of `previousModel`; each later call
   * sends the model of the latest 503 before it (none before the first 503); and the
   * oracle is asked about attempts `attempt`, `attempt + 1`, ... in order.
   */
  lemma {:induction false} CallsHints(respond: Oracle, attempt: nat, maxRetries: int, previousModel: string)
    requires attempt >= 1
    ensures var cs := Calls(respond, attempt, maxRetries, previousModel);
      && (cs != [] ==> cs[0].hint == HintOf(previousModel))
      && (forall i :: 0 <= i < |cs| - 1 ==> cs[i + 1].hint == NextHint(cs[i]))
      && (forall i :: 0 <= i < |cs| ==> cs[i].outcome == respond(attempt + i, cs[i].hint))
    decreases maxRetries - attempt
  {
    var cs := Calls(respond, attempt, maxRetries, previousModel);
    if attempt <= maxRetries {
      var hint := HintOf(previousModel);
      var outcome := respond(attempt, hint);
      var c := Call(hint, outcome);
      if !outcome.Reply? {
        var next := if outcome.Unavailable? then outcome.model else previousModel;
        var rest := Calls(respond, attempt + 1, maxRetries, next);
        CallsHints(respond, attempt + 1, maxRetries, next);
        assert cs == [c] + rest;
        forall i | 0 <= i < |cs| - 1 ensures cs[i + 1].hint == NextHint(cs[i]) {
          if i > 0 {
            assert cs[i] == rest[i - 1];
          }
        }
        forall i | 0 <= i < |cs| ensures cs[i].outcome == respond(attempt + i, cs[i].hint) {
          if i > 0 {
            assert cs[i] == rest[i - 1];
          }
        }
      }
    }
  }

  /** A fresh invocation's first call carries no hint, so `error_503` is never sent first. */
  lemma FirstCallHasNoHint(respond: Oracle, maxRetries: int)
    requires maxRetries >= 1
    ensures |Run(respond, maxRetries)| >= 1 && Run(respond, maxRetries)[0].hint == None
  {
    CallsBounded(respond, 1, maxRetries, "");
    CallsHints(respond, 1, maxRetries, "");
  }

  /** A hint is only ever the model of an earlier 503. */
  lemma {:induction false} HintComesFrom503(respond: Oracle, maxRetries: int, i: nat)
    requires i < |Run(respond, maxRetries)|
    requires Run(respond, maxRetries)[i].hint.Some?
    ensures exists j :: 0 <= j < i && Run(respond, maxRetries)[j].outcome == Unavailable(Run(respond, maxRetries)[i].hint.value)
  {
    var cs := Run(respond, maxRetries);
    CallsHints(respond, 1, maxRetries, "");
    if i > 0 {
      assert cs[i].hint == NextHint(cs[i - 1]);
      if !cs[i - 1].outcome.Unavailable? {
        HintComesFrom503(respond, maxRetries, i - 1);
      }
    }
  }
}
