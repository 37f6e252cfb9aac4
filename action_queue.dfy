/**
  The action queue as the router sees it: an object it pushes actions onto
  and removes actions from by hash. How the queue stores, deduplicates and
  works off its actions is not part of this model; the object records the
  calls made on it, and a push answers with the action's content hash.
 */
module ActionQueues {

  import opened Messages

  class ActionQueue<P> {
    /** The content hash the queue gives an action. */
    const hashOf: Action<P> -> string
    /** Every push and remove made on this queue, oldest first. */
    var log: seq<QueueCall<P>>

    constructor (hashOf: Action<P> -> string)
      ensures this.hashOf == hashOf
      ensures log == []
    {
      this.hashOf := hashOf;
      log := [];
    }

    /** `actionQueue.push(action)`: answers with the action's meta, whose hash identifies it. */
    method Push(action: Action<P>) returns (meta: ActionMeta)
      modifies this
      ensures meta.hash == hashOf(action)
      ensures log == old(log) + [QueueCall.Push(action)]
    {
      log := log + [QueueCall.Push(action)];
      meta := ActionMeta(hashOf(action));
    }

    /** `actionQueue.remove(hash)`. */
    method Remove(actionHash: string)
      modifies this
      ensures log == old(log) + [QueueCall.Remove(actionHash)]
    {
      log := log + [QueueCall.Remove(actionHash)];
    }
  }
}
