/** What the sweep machine and the poller both speak of: object-created events in messages of queues. */
module SqsEvents {
  type QueueId = nat
  type MsgId = nat
  type Key = string

  /** What the idempotency probe looks for. */
  datatype Triple = Triple(msg: MsgId, queue: QueueId, key: Key)
}
