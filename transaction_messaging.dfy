/**
  The transaction message router of the extension's background: one inbound
  message leads to at most one call on the action queue or fee query, and at
  most one message sent to the tab and the wallet UI. `Route` says what
  handling a message does; `HandleTransactionMessage` does it step by step
  against the queue object and is proved to agree with `Route`.
 */
module TransactionMessaging {

  import opened Wrappers
  import opened HexNumber
  import opened StarkFees
  import opened Messages
  import opened ActionQueues

  /** The fallback text when the thrown value says nothing about itself. */
  const UnknownError: string := "Unkown error"

  /**
    The rejection text for a thrown value: its message if that is not
    nullish, else its own string form if that is not nullish, else the fixed
    fallback. An empty message is kept, since only nullish values fall through.
   */
  function ErrorText(e: Thrown): (r: string)
    ensures e.messageText.Some? ==> r == e.messageText.value
    ensures e.messageText.None? && e.text.Some? ==> r == e.text.value
    ensures e.messageText.None? && e.text.None? ==> r == UnknownError
  {
    match (e.messageText, e.text)
    case (Some(m), _) => m
    case (None, Some(t)) => t
    case (None, None) => UnknownError
  }

  /**
    The reply to a successful fee estimate: the overall fee in hex, and the
    collaborator's suggested maximum fee read back from hex, doubled and
    written in hex again.
   */
  function FeeResponse(fee: FeeEstimate): (r: FeeResponseData)
    ensures FromHex(r.amount) == Some(fee.overallFee)
    ensures FromHex(r.suggestedMaxFee) == Some(2 * fee.suggestedMaxFee)
    ensures r == FeeResponseData(ToHex(fee.overallFee), ToHex(2 * fee.suggestedMaxFee))
  {
    var overallFee := ToHex(fee.overallFee);
    var maxFee := ToHex(fee.suggestedMaxFee);
    HexRoundTrip(fee.overallFee);
    HexRoundTrip(fee.suggestedMaxFee);
    var doubled := EstimatedFeeToMaxFee(FromHex(maxFee).value);
    assert doubled == 2 * fee.suggestedMaxFee;
    HexRoundTrip(doubled);
    FeeResponseData(overallFee, ToHex(doubled))
  }

  /** The message sent once the fee query settles: a response, or a rejection naming the error. */
  function FeeReplyMessage<P>(reply: Reply<FeeEstimate>): (r: Message<P>)
    ensures r.EstimateTransactionFeeRes? <==> reply.Returned?
    ensures reply.Threw? ==> r == EstimateTransactionFeeRej(ErrorText(reply.error))
  {
    match reply
    case Returned(fee) => EstimateTransactionFeeRes(FeeResponse(fee))
    case Threw(e) => EstimateTransactionFeeRej(ErrorText(e))
  }

  /**
    The fee query made for `account` and the payload, and what it settles to:
    the deployment fee exactly when the account needs deploying, the chain
    account's estimate of the payload otherwise; the answer is always that of
    the collaborator queried.
   */
  function FeeQuery<P>(account: Account, data: P, wallet: Wallet): (r: (Query<P>, Reply<FeeEstimate>))
    ensures r.0.GetAccountDeploymentFee? || r.0.EstimateFee?
    ensures r.0.GetAccountDeploymentFee? <==> account.needsDeploy
    ensures r.0.GetAccountDeploymentFee? ==> r.0.account == account && r.1 == wallet.deploymentFeeReply
    ensures r.0.EstimateFee? ==> r.0.payload == data && r.1 == wallet.estimateFeeReply
  {
    if account.needsDeploy then (GetAccountDeploymentFee(account), wallet.deploymentFeeReply)
    else (EstimateFee(data), wallet.estimateFeeReply)
  }

  /**
    What handling `msg` does, given the wallet's answers and the queue's
    hashing. It throws `UnhandledMessage` exactly for the types it does not
    handle, and "no accounts" exactly for a fee estimate without a selected
    account; a thrown outcome has only consulted the wallet.
   */
  function Route<P>(msg: Message<P>, wallet: Wallet, hashOf: Action<P> -> string): (r: Step<P>)
    ensures r.completion == Raised(UnhandledMessage) <==> msg.TypeName() !in HandledTypes
    ensures r.completion == Raised(Error(NoAccounts)) <==> msg.EstimateTransactionFee? && wallet.selectedAccount.None?
    ensures r.completion.Raised? ==> forall e <- r.effects :: e.Consult?
  {
    match msg
    case ExecuteTransaction(data) =>
      var action := Action(Transaction, data);
      Step([Enqueue(QueueCall.Push(action)), Send(ExecuteTransactionRes(hashOf(action)))], Done)
    case EstimateTransactionFee(data) =>
      var lookups := [Consult(GetSelectedAccount), Consult(GetSelectedStarknetAccount)];
      (match wallet.selectedAccount
       case None => Step(lookups, Raised(Error(NoAccounts)))
       case Some(account) =>
         var fee := FeeQuery(account, data, wallet);
         Step(lookups + [Consult(fee.0), Send(FeeReplyMessage(fee.1))], Done))
    case TransactionFailed(actionHash) =>
      Step([Enqueue(QueueCall.Remove(actionHash))], Done)
    case _ =>
      Step([], Raised(UnhandledMessage))
  }

  /**
    What handling a message asks of the wallet and the chain account, and
    what it sends (its queue calls are stated by `QueueCallsOfRoute`). Only a
    fee estimate consults the wallet; only an execution and a fee estimate
    with a selected account send anything.
   */
  lemma RouteProjections<P>(msg: Message<P>, wallet: Wallet, hashOf: Action<P> -> string)
    ensures Queries(Route(msg, wallet, hashOf).effects) ==
      match msg
      case EstimateTransactionFee(data) =>
        [GetSelectedAccount, GetSelectedStarknetAccount] +
        (match wallet.selectedAccount
         case None => []
         case Some(account) => [FeeQuery(account, data, wallet).0])
      case _ => []
    ensures Sent(Route(msg, wallet, hashOf).effects) ==
      match msg
      case ExecuteTransaction(data) => [ExecuteTransactionRes(hashOf(Action(Transaction, data)))]
      case EstimateTransactionFee(data) =>
        (match wallet.selectedAccount
         case None => []
         case Some(account) => [FeeReplyMessage(FeeQuery(account, data, wallet).1)])
      case _ => []
  {
    match msg
    case ExecuteTransaction(data) => ExecuteTrace(data, wallet, hashOf);
    case EstimateTransactionFee(data) => EstimateTrace(data, wallet, hashOf);
    case TransactionFailed(actionHash) => ProjectOne<P>(Enqueue(QueueCall.Remove(actionHash)));
    case _ =>
  }

  /**
    The action queue is touched only by a transaction execution, which
    pushes the transaction, and by a failure report, which removes its hash.
   */
  lemma QueueCallsOfRoute<P>(msg: Message<P>, wallet: Wallet, hashOf: Action<P> -> string)
    ensures QueueCalls(Route(msg, wallet, hashOf).effects) ==
      match msg
      case ExecuteTransaction(data) => [QueueCall.Push(Action(Transaction, data))]
      case TransactionFailed(actionHash) => [QueueCall.Remove(actionHash)]
      case _ => []
  {
    match msg
    case ExecuteTransaction(data) => ExecuteTrace(data, wallet, hashOf);
    case EstimateTransactionFee(data) => EstimateTrace(data, wallet, hashOf);
    case TransactionFailed(actionHash) => ProjectOne<P>(Enqueue(QueueCall.Remove(actionHash)));
    case _ =>
  }

  lemma ExecuteTrace<P>(data: P, wallet: Wallet, hashOf: Action<P> -> string)
    ensures var effects := Route(ExecuteTransaction(data), wallet, hashOf).effects;
      var action := Action(Transaction, data);
      && QueueCalls(effects) == [QueueCall.Push(action)]
      && Queries(effects) == []
      && Sent(effects) == [ExecuteTransactionRes(hashOf(action))]
  {
    var effects := Route(ExecuteTransaction(data), wallet, hashOf).effects;
    ProjectPair(effects[0], effects[1]);
    ProjectOne(effects[0]);
    ProjectOne(effects[1]);
  }

  lemma EstimateTrace<P>(data: P, wallet: Wallet, hashOf: Action<P> -> string)
    ensures var effects := Route(EstimateTransactionFee(data), wallet, hashOf).effects;
      && QueueCalls(effects) == []
      && Queries(effects) ==
        [GetSelectedAccount, GetSelectedStarknetAccount] +
        (match wallet.selectedAccount
         case None => []
         case Some(account) => [FeeQuery(account, data, wallet).0])
      && Sent(effects) ==
        (match wallet.selectedAccount
         case None => []
         case Some(account) => [FeeReplyMessage(FeeQuery(account, data, wallet).1)])
  {
    var lookups: seq<Effect<P>> := [Consult(GetSelectedAccount), Consult(GetSelectedStarknetAccount)];
    if wallet.selectedAccount.Some? {
      EstimateWithAccountTrace(data, wallet, hashOf);
    } else {
      assert Route(EstimateTransactionFee(data), wallet, hashOf).effects == lookups;
      LookupsProjections(lookups);
    }
  }

  lemma EstimateWithAccountTrace<P>(data: P, wallet: Wallet, hashOf: Action<P> -> string)
    requires wallet.selectedAccount.Some?
    ensures var effects := Route(EstimateTransactionFee(data), wallet, hashOf).effects;
      var fee := FeeQuery(wallet.selectedAccount.value, data, wallet);
      && QueueCalls(effects) == []
      && Queries(effects) == [GetSelectedAccount, GetSelectedStarknetAccount, fee.0]
      && Sent(effects) == [FeeReplyMessage(fee.1)]
  {
    var fee := FeeQuery(wallet.selectedAccount.value, data, wallet);
    var lookups := [Consult(GetSelectedAccount), Consult(GetSelectedStarknetAccount)];
    assert Route(EstimateTransactionFee(data), wallet, hashOf).effects ==
      lookups + [Consult(fee.0), Send(FeeReplyMessage(fee.1))];
    LookupsQueryReply(fee.0, FeeReplyMessage(fee.1));
  }

  /** The projections of the trace of a fee estimate that reaches its fee query. */
  lemma LookupsQueryReply<P>(query: Query<P>, reply: Message<P>)
    ensures var effects := [Consult(GetSelectedAccount), Consult(GetSelectedStarknetAccount)] + [Consult(query), Send(reply)];
      && QueueCalls(effects) == []
      && Queries(effects) == [GetSelectedAccount, GetSelectedStarknetAccount, query]
      && Sent(effects) == [reply]
  {
    var lookups: seq<Effect<P>> := [Consult(GetSelectedAccount), Consult(GetSelectedStarknetAccount)];
    ProjectAppend(lookups, [Consult(query), Send(reply)]);
    LookupsProjections(lookups);
    QueryReplyProjections(query, reply);
  }

  /** The two account lookups only consult the wallet. */
  lemma LookupsProjections<P>(lookups: seq<Effect<P>>)
    requires lookups == [Consult(GetSelectedAccount), Consult(GetSelectedStarknetAccount)]
    ensures QueueCalls(lookups) == [] && Sent(lookups) == []
    ensures Queries(lookups) == [GetSelectedAccount, GetSelectedStarknetAccount]
  {
    ProjectPair(lookups[0], lookups[1]);
    ProjectOne(lookups[0]);
    ProjectOne(lookups[1]);
  }

  /** The fee query followed by the reply: one query and one message sent. */
  lemma QueryReplyProjections<P>(query: Query<P>, reply: Message<P>)
    ensures QueueCalls([Consult(query), Send(reply)]) == []
    ensures Queries([Consult(query), Send(reply)]) == [query]
    ensures Sent([Consult(query), Send(reply)]) == [reply]
  {
    ProjectPair(Consult(query), Send(reply));
    ProjectOne(Consult(query));
    ProjectOne(Send(reply));
  }

  /**
    The `ESTIMATE_TRANSACTION_FEE` branch of the handler: both account
    lookups, the "no accounts" throw, the fee query chosen by whether the
    account needs deploying, and the reply; its trace and outcome are
    `Route`'s for that message.
   */
  method HandleFeeEstimate<P>(data: P, wallet: Wallet, ghost hashOf: Action<P> -> string)
    returns (completion: Completion, effects: seq<Effect<P>>)
    ensures Step(effects, completion) == Route(EstimateTransactionFee(data), wallet, hashOf)
  {
    var selectedAccount := wallet.selectedAccount;
    effects := [Consult(GetSelectedAccount), Consult(GetSelectedStarknetAccount)];
    if selectedAccount.None? {
      completion := Raised(Error(NoAccounts));
      return;
    }
    var account := selectedAccount.value;
    var query: Query<P>, reply: Reply<FeeEstimate>;
    if account.needsDeploy {
      query, reply := GetAccountDeploymentFee(account), wallet.deploymentFeeReply;
    } else {
      query, reply := EstimateFee(data), wallet.estimateFeeReply;
    }
    assert query == FeeQuery(account, data, wallet).0 && reply == FeeQuery(account, data, wallet).1;
    effects := effects + [Consult(query), Send(FeeReplyMessage(reply))];
    completion := Done;
  }

  /**
    `handleTransactionMessage`: handles one message against the action queue,
    returning how it ended and the collaborator calls and sent messages in
    order; the queue's log grows by exactly the queue calls of that trace.
   */
  method HandleTransactionMessage<P>(msg: Message<P>, wallet: Wallet, actionQueue: ActionQueue<P>)
    returns (completion: Completion, effects: seq<Effect<P>>)
    modifies actionQueue
    ensures Step(effects, completion) == Route(msg, wallet, actionQueue.hashOf)
    ensures actionQueue.log == old(actionQueue.log) + QueueCalls(effects)
  {
    ghost var hashOf := actionQueue.hashOf;
    match msg {
      case ExecuteTransaction(data) =>
        var action := Action(Transaction, data);
        var meta := actionQueue.Push(action);
        effects := [Enqueue(QueueCall.Push(action)), Send(ExecuteTransactionRes(meta.hash))];
        completion := Done;

      case EstimateTransactionFee(data) =>
        completion, effects := HandleFeeEstimate(data, wallet, hashOf);

      case TransactionFailed(actionHash) =>
        actionQueue.Remove(actionHash);
        effects := [Enqueue(QueueCall.Remove(actionHash))];
        completion := Done;

      case _ =>
        effects := [];
        completion := Raised(UnhandledMessage);
    }
    QueueCallsOfRoute(msg, wallet, hashOf);
  }
}
