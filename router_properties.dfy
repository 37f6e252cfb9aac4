/**
  What the transaction message router promises, stated over `Route`, which
  `HandleTransactionMessage` is proved to follow.
 */
module RouterProperties {

  import opened Wrappers
  import opened HexNumber
  import opened Messages
  import opened TransactionMessaging

  /** Executing a transaction pushes exactly that transaction, then answers with the hash the push returned. */
  lemma ExecutePushesThenReplies<P>(data: P, wallet: Wallet, hashOf: Action<P> -> string)
    ensures var step := Route(ExecuteTransaction(data), wallet, hashOf);
      var action := Action(Transaction, data);
      && step.completion == Done
      && QueueCalls(step.effects) == [QueueCall.Push(action)]
      && Sent(step.effects) == [ExecuteTransactionRes(hashOf(action))]
      && Queries(step.effects) == []
      && step.effects[0] == Enqueue(QueueCall.Push(action))
  {
    ExecuteTrace(data, wallet, hashOf);
  }

  /**
    Without a selected account a fee estimate throws "no accounts" after both
    wallet lookups: no fee is queried, nothing is sent, the queue is untouched.
   */
  lemma NoAccountThrows<P>(data: P, wallet: Wallet, hashOf: Action<P> -> string)
    requires wallet.selectedAccount.None?
    ensures var step := Route(EstimateTransactionFee(data), wallet, hashOf);
      && step.completion == Raised(Error("no accounts"))
      && Queries(step.effects) == [GetSelectedAccount, GetSelectedStarknetAccount]
      && Sent(step.effects) == []
      && QueueCalls(step.effects) == []
  {
    EstimateTrace(data, wallet, hashOf);
  }

  /**
    With a selected account, exactly one fee query follows the lookups: the
    deployment fee when the account still needs deploying, the chain
    account's estimate of the payload otherwise.
   */
  lemma FeePathSelection<P>(data: P, wallet: Wallet, hashOf: Action<P> -> string)
    requires wallet.selectedAccount.Some?
    ensures var account := wallet.selectedAccount.value;
      Queries(Route(EstimateTransactionFee(data), wallet, hashOf).effects) ==
        [GetSelectedAccount, GetSelectedStarknetAccount,
         if account.needsDeploy then GetAccountDeploymentFee(account) else EstimateFee(data)]
  {
    EstimateTrace(data, wallet, hashOf);
  }

  /** The two fee paths exclude each other: the one not chosen is never queried. */
  lemma FeePathsExclusive<P>(data: P, wallet: Wallet, hashOf: Action<P> -> string)
    requires wallet.selectedAccount.Some?
    ensures var queries := Queries(Route(EstimateTransactionFee(data), wallet, hashOf).effects);
      && (wallet.selectedAccount.value.needsDeploy ==> forall q <- queries :: !q.EstimateFee?)
      && (!wallet.selectedAccount.value.needsDeploy ==> forall q <- queries :: !q.GetAccountDeploymentFee?)
  {
    FeePathSelection(data, wallet, hashOf);
  }

  /**
    A fee estimate that settles sends exactly one response, whose amount
    reads back as the overall fee and whose suggested maximum fee reads back
    as twice the collaborator's suggested maximum fee.
   */
  lemma FeeEstimateResponds<P>(data: P, wallet: Wallet, hashOf: Action<P> -> string)
    requires wallet.selectedAccount.Some?
    requires (if wallet.selectedAccount.value.needsDeploy then wallet.deploymentFeeReply
              else wallet.estimateFeeReply).Returned?
    ensures var step := Route(EstimateTransactionFee(data), wallet, hashOf);
      var fee := (if wallet.selectedAccount.value.needsDeploy then wallet.deploymentFeeReply
                  else wallet.estimateFeeReply).value;
      && step.completion == Done
      && QueueCalls(step.effects) == []
      && |Sent(step.effects)| == 1
      && Sent(step.effects)[0] == EstimateTransactionFeeRes(FeeResponseData(ToHex(fee.overallFee), ToHex(2 * fee.suggestedMaxFee)))
      && FromHex(Sent(step.effects)[0].fees.amount) == Some(fee.overallFee)
      && FromHex(Sent(step.effects)[0].fees.suggestedMaxFee) == Some(2 * fee.suggestedMaxFee)
  {
    EstimateTrace(data, wallet, hashOf);
  }

  /**
    When the collaborator's suggested maximum fee is one and a half times the
    overall fee, the fee sent is three times the overall fee.
   */
  lemma ThreeTimesOverallFee(fee: FeeEstimate)
    requires 2 * fee.suggestedMaxFee == 3 * fee.overallFee
    ensures FromHex(FeeResponse(fee).suggestedMaxFee) == Some(3 * fee.overallFee)
  {
  }

  /** An overall fee of 0x64 with a suggested maximum of 0x96 is answered with 0x64 and 0x12c. */
  lemma FeeExample()
    ensures FeeResponse(FeeEstimate(100, 150)) == FeeResponseData("0x64", "0x12c")
  {
    HexRoundTrip(150);
    assert FeeResponse(FeeEstimate(100, 150)) == FeeResponseData(ToHex(100), ToHex(300));
    HexOf100();
    HexOf300();
  }

  lemma HexOf100()
    ensures ToHex(100) == "0x64"
  {
    AppendDigit(6, 4);
  }

  lemma HexOf300()
    ensures ToHex(300) == "0x12c"
  {
    AppendDigit(1, 2);
    AppendDigit(18, 12);
  }

  /**
    A fee estimate whose query throws sends exactly one rejection, carrying
    the error text (and so no response).
   */
  lemma FeeEstimateRejects<P>(data: P, wallet: Wallet, hashOf: Action<P> -> string)
    requires wallet.selectedAccount.Some?
    requires (if wallet.selectedAccount.value.needsDeploy then wallet.deploymentFeeReply
              else wallet.estimateFeeReply).Threw?
    ensures var step := Route(EstimateTransactionFee(data), wallet, hashOf);
      var error := (if wallet.selectedAccount.value.needsDeploy then wallet.deploymentFeeReply
                    else wallet.estimateFeeReply).error;
      && step.completion == Done
      && Sent(step.effects) == [EstimateTransactionFeeRej(ErrorText(error))]
  {
    EstimateTrace(data, wallet, hashOf);
  }

  /** A failure report removes exactly its hash from the queue and sends nothing. */
  lemma TransactionFailedRemoves<P>(actionHash: string, wallet: Wallet, hashOf: Action<P> -> string)
    ensures var step := Route(TransactionFailed(actionHash), wallet, hashOf);
      && step.completion == Done
      && QueueCalls(step.effects) == [QueueCall.Remove(actionHash)]
      && Sent(step.effects) == []
      && Queries(step.effects) == []
  {
    RouteProjections(TransactionFailed(actionHash), wallet, hashOf);
    QueueCallsOfRoute(TransactionFailed(actionHash), wallet, hashOf);
  }

  /**
    Dispatch is total: `Route`'s own contract says a message throws
    `UnhandledMessage` exactly when its type is not one of the three handled
    types; such a message then does nothing else.
   */
  lemma UnhandledExactlyOutsideHandledTypes<P>(msg: Message<P>, wallet: Wallet, hashOf: Action<P> -> string)
    ensures var step := Route(msg, wallet, hashOf);
      step.completion == Raised(UnhandledMessage) ==> step.effects == []
  {
  }

  /**
    Handling one message sends at most one message and makes at most one
    queue call; a message is sent only when handling returns normally.
   */
  lemma AtMostOneMessage<P>(msg: Message<P>, wallet: Wallet, hashOf: Action<P> -> string)
    ensures var step := Route(msg, wallet, hashOf);
      && |Sent(step.effects)| <= 1
      && |QueueCalls(step.effects)| <= 1
      && (step.completion.Raised? ==> Sent(step.effects) == [] && QueueCalls(step.effects) == [])
  {
    RouteProjections(msg, wallet, hashOf);
    QueueCallsOfRoute(msg, wallet, hashOf);
  }
}
