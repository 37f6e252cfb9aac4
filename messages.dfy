/**
  The values the transaction message router works with: the messages it
  receives and sends, the queued actions, what the wallet and the chain
  account answer, what a thrown JavaScript error looks like to the router,
  and the trace of collaborator calls one handled message gives rise to.
 */
module Messages {

  import opened Wrappers

  /** The message types the router handles. */
  const ExecuteTransactionType: string := "EXECUTE_TRANSACTION"
  const EstimateTransactionFeeType: string := "ESTIMATE_TRANSACTION_FEE"
  const TransactionFailedType: string := "TRANSACTION_FAILED"
  const HandledTypes: set<string> :=
    {ExecuteTransactionType, EstimateTransactionFeeType, TransactionFailedType}

  /** The message types the router sends. */
  const ExecuteTransactionResType: string := "EXECUTE_TRANSACTION_RES"
  const EstimateTransactionFeeResType: string := "ESTIMATE_TRANSACTION_FEE_RES"
  const EstimateTransactionFeeRejType: string := "ESTIMATE_TRANSACTION_FEE_REJ"

  /** Every message type named above. */
  const ListedTypes: set<string> :=
    HandledTypes + {ExecuteTransactionResType, EstimateTransactionFeeResType, EstimateTransactionFeeRejType}

  /** A message type name other than the listed ones. */
  type UnlistedType = t: string | t !in ListedTypes witness ""

  /**
    A transaction message; `P` is the transaction payload, which the router
    passes on without looking into it. `Other` stands for every message
    type not listed here, carrying its type name, so a message's type name
    always decides its shape.
   */
  datatype Message<P> =
    | ExecuteTransaction(data: P)
    | EstimateTransactionFee(data: P)
    | TransactionFailed(actionHash: string)
    | ExecuteTransactionRes(actionHash: string)
    | EstimateTransactionFeeRes(fees: FeeResponseData)
    | EstimateTransactionFeeRej(error: string)
    | Other(typeName: UnlistedType)
  {
    /** The `type` field of the message. */
    function TypeName(): string {
      match this
      case ExecuteTransaction(_) => ExecuteTransactionType
      case EstimateTransactionFee(_) => EstimateTransactionFeeType
      case TransactionFailed(_) => TransactionFailedType
      case ExecuteTransactionRes(_) => ExecuteTransactionResType
      case EstimateTransactionFeeRes(_) => EstimateTransactionFeeResType
      case EstimateTransactionFeeRej(_) => EstimateTransactionFeeRejType
      case Other(t) => t
    }
  }

  /** The data of a fee estimate response: both fees as hex strings. */
  datatype FeeResponseData = FeeResponseData(amount: string, suggestedMaxFee: string)

  /** Kinds of queued action; the router only creates transactions. */
  datatype ActionType = Transaction

  datatype Action<P> = Action(actionType: ActionType, payload: P)

  /** What the queue answers to a push. */
  datatype ActionMeta = ActionMeta(hash: string)

  /** An account of the wallet, as far as the router looks at it. */
  datatype Account = Account(address: string, needsDeploy: bool)

  /** A fee estimate as the chain answers it, in the chain's smallest unit. */
  datatype FeeEstimate = FeeEstimate(overallFee: nat, suggestedMaxFee: nat)

  /**
    A thrown JavaScript value, seen through the two reads the router makes of
    it: `messageText` is what `error?.message?.toString?.()` yields and
    `text` what `error?.toString?.()` yields, None where that is
    `undefined` or `null`.
   */
  datatype Thrown = Thrown(messageText: Option<string>, text: Option<string>)

  /** What an awaited collaborator call settles to. */
  datatype Reply<T> = Returned(value: T) | Threw(error: Thrown)

  /**
    The wallet and the selected chain account, as inputs: the selected
    account (if any), and what `getAccountDeploymentFee(selectedAccount)` and
    `estimateFee(msg.data)` would settle to for the message at hand.
   */
  datatype Wallet = Wallet(
    selectedAccount: Option<Account>,
    deploymentFeeReply: Reply<FeeEstimate>,
    estimateFeeReply: Reply<FeeEstimate>)

  /** Calls the router makes of the wallet and the chain account. */
  datatype Query<P> =
    | GetSelectedAccount
    | GetSelectedStarknetAccount
    | GetAccountDeploymentFee(account: Account)
    | EstimateFee(payload: P)

  /** Calls the router makes of the action queue. */
  datatype QueueCall<P> = Push(action: Action<P>) | Remove(actionHash: string)

  /** One observable step of handling a message, in the order it happens. */
  datatype Effect<P> =
    | Consult(query: Query<P>)
    | Enqueue(call: QueueCall<P>)
    | Send(message: Message<P>)

  /** Errors the router throws to its caller. */
  datatype Failure = Error(message: string) | UnhandledMessage

  const NoAccounts: string := "no accounts"

  /** How handling a message ends: it returns, or it throws. */
  datatype Completion = Done | Raised(failure: Failure)

  /** Everything handling one message does. */
  datatype Step<P> = Step(effects: seq<Effect<P>>, completion: Completion)

  /** The messages handed to `sendToTabAndUi`, in order. */
  function Sent<P>(effects: seq<Effect<P>>): seq<Message<P>>
  {
    if effects == [] then []
    else (if effects[0].Send? then [effects[0].message] else []) + Sent(effects[1..])
  }

  /** The calls made on the action queue, in order. */
  function QueueCalls<P>(effects: seq<Effect<P>>): seq<QueueCall<P>>
  {
    if effects == [] then []
    else (if effects[0].Enqueue? then [effects[0].call] else []) + QueueCalls(effects[1..])
  }

  /** The wallet and chain-account calls, in order. */
  function Queries<P>(effects: seq<Effect<P>>): seq<Query<P>>
  {
    if effects == [] then []
    else (if effects[0].Consult? then [effects[0].query] else []) + Queries(effects[1..])
  }

  /** The projections of a one-step trace. */
  lemma ProjectOne<P>(e: Effect<P>)
    ensures Sent([e]) == if e.Send? then [e.message] else []
    ensures QueueCalls([e]) == if e.Enqueue? then [e.call] else []
    ensures Queries([e]) == if e.Consult? then [e.query] else []
  {
    assert [e][1..] == [];
  }

  /** Projecting a trace distributes over appending traces. */
  lemma ProjectAppend<P>(a: seq<Effect<P>>, b: seq<Effect<P>>)
    ensures Sent(a + b) == Sent(a) + Sent(b)
    ensures QueueCalls(a + b) == QueueCalls(a) + QueueCalls(b)
    ensures Queries(a + b) == Queries(a) + Queries(b)
  {
    SentAppend(a, b);
    QueueCallsAppend(a, b);
    QueriesAppend(a, b);
  }

  lemma {:induction false} SentAppend<P>(a: seq<Effect<P>>, b: seq<Effect<P>>)
    ensures Sent(a + b) == Sent(a) + Sent(b)
  {
    if a == [] {
      assert a + b == b;
    } else {
      assert (a + b)[0] == a[0] && (a + b)[1..] == a[1..] + b;
      SentAppend(a[1..], b);
    }
  }

  lemma {:induction false} QueueCallsAppend<P>(a: seq<Effect<P>>, b: seq<Effect<P>>)
    ensures QueueCalls(a + b) == QueueCalls(a) + QueueCalls(b)
  {
    if a == [] {
      assert a + b == b;
    } else {
      assert (a + b)[0] == a[0] && (a + b)[1..] == a[1..] + b;
      QueueCallsAppend(a[1..], b);
    }
  }

  lemma {:induction false} QueriesAppend<P>(a: seq<Effect<P>>, b: seq<Effect<P>>)
    ensures Queries(a + b) == Queries(a) + Queries(b)
  {
    if a == [] {
      assert a + b == b;
    } else {
      assert (a + b)[0] == a[0] && (a + b)[1..] == a[1..] + b;
      QueriesAppend(a[1..], b);
    }
  }

  /** The projections of a two-step trace. */
  lemma ProjectPair<P>(a: Effect<P>, b: Effect<P>)
    ensures Sent([a, b]) == Sent([a]) + Sent([b])
    ensures QueueCalls([a, b]) == QueueCalls([a]) + QueueCalls([b])
    ensures Queries([a, b]) == Queries([a]) + Queries([b])
  {
    assert [a, b] == [a] + [b];
    ProjectAppend([a], [b]);
  }
}
