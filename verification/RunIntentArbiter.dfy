/** Run intents: every request mints a fresh token and only the newest one is current. */
module RunIntentArbiter {

  /** `id` stands for the identity of the source's token object. */
  datatype Token = Token(id: nat, running: bool)

  /** The value of an arbiter: the newest token, and the supply of fresh identities. */
  datatype Intent = Intent(latest: Token, minted: nat)

  function Initial(running: bool): Intent {
    Intent(Token(0, running), 1)
  }

  function AfterRequest(intent: Intent, running: bool): Intent {
    Intent(Token(intent.minted, running), intent.minted + 1)
  }

  function AfterReset(intent: Intent, token: Token): Intent {
    if intent.latest == token then AfterRequest(intent, false) else intent
  }

  datatype Operation = Mint(running: bool) | Reset(token: Token)

  function RunIntents(intent: Intent, operations: seq<Operation>): Intent {
    if operations == [] then intent
    else
      var before := RunIntents(intent, operations[..|operations| - 1]);
      match operations[|operations| - 1]
      case Mint(running) => AfterRequest(before, running)
      case Reset(token) => AfterReset(before, token)
  }

  /** Tokens minted so far carry identities below the supply. */
  predicate Minted(intent: Intent, token: Token) {
    token.id < intent.minted
  }

  /** Once a token is overtaken no later operation makes it current again. */
  lemma {:induction false} OvertakenForGood(intent: Intent, token: Token, operations: seq<Operation>)
    requires Minted(intent, intent.latest) && Minted(intent, token) && intent.latest != token
    ensures Minted(RunIntents(intent, operations), token)
    ensures Minted(RunIntents(intent, operations), RunIntents(intent, operations).latest)
    ensures RunIntents(intent, operations).latest != token
  {
    if operations != [] {
      OvertakenForGood(intent, token, operations[..|operations| - 1]);
    }
  }

  /** A rollback takes effect exactly for the newest token, and at most once for it. */
  lemma {:induction false} ResetWinsOnce(intent: Intent, token: Token, between: seq<Operation>)
    requires Minted(intent, intent.latest) && intent.latest == token
    ensures var reset := AfterReset(intent, token);
            && reset.latest != token && !reset.latest.running
            && AfterReset(RunIntents(reset, between), token) == RunIntents(reset, between)
  {
    OvertakenForGood(AfterReset(intent, token), token, between);
  }

  class Arbiter {
    var latest: Token
    var minted: nat

    ghost function Value(): Intent
      reads this
    {
      Intent(latest, minted)
    }

    constructor (initialRunning: bool)
      ensures Value() == Initial(initialRunning)
    {
      latest, minted := Token(0, initialRunning), 1;
    }

    method Request(running: bool) returns (token: Token)
      modifies this
      ensures Value() == AfterRequest(old(Value()), running)
      ensures token == latest
    {
      token := Token(minted, running);
      latest, minted := token, minted + 1;
    }

    predicate IsCurrent(token: Token)
      reads this
    {
      latest == token
    }

    method ResetToStopped(token: Token) returns (won: bool)
      modifies this
      ensures Value() == AfterReset(old(Value()), token)
      ensures won == old(IsCurrent(token))
    {
      won := latest == token;
      if won {
        latest, minted := Token(minted, false), minted + 1;
      }
    }
  }
}
