/** The values every part of the model speaks in: names, AG-UI events, and the
    commands a run's record is made of. Names (run ids, thread ids, public keys)
    are opaque tokens that are only ever compared, so naturals stand for them. */
module Vocabulary {

  datatype Option<+T> = None | Some(value: T)

  ghost predicate Distinct<T>(s: seq<T>) {
    forall i, j :: 0 <= i < j < |s| ==> s[i] != s[j]
  }

  type RunId = nat
  type ThreadId = nat
  type Key = nat

  /** An agent is addressed by the provider key that published it and a name. */
  datatype AgentRef = AgentRef(providerKey: Key, name: string)

  datatype EventType = RunStarted | RunFinished | RunError | TextContent | TextChunk | OtherEvent

  /** What an event's `type` holds: nothing that is a string, one of AG-UI's own
      types, or a string AG-UI does not know. */
  datatype Tag = Untyped | Known(eventType: EventType) | Foreign(name: string)

  /** An AG-UI event as reported. `validates` is the verdict of AG-UI's own model;
      an absent text field and an empty one read the same, so both are "". */
  datatype Event = Event(tag: Tag, validates: bool, messageId: string, delta: string,
                         content: string, message: string, code: FailCode)

  /** An event of a type AG-UI does not know is relayed unread; every other event
      must validate, or it poisons the run. */
  predicate Malformed(e: Event) {
    !e.tag.Foreign? && !e.validates
  }

  predicate HasType(e: Event, t: EventType) {
    e.tag == Known(t)
  }

  /** The machine-readable reasons funduq ends a run for; `HostReason` carries one
      a caller outside the broker names. */
  datatype FailCode =
    | NoCode
    | ProviderRefused
    | ProviderDeclined
    | ProviderDidNotAnswer
    | ProviderLeftHoldingIt
    | ProviderSentMalformedEvent
    | ProviderStreamEndedWithoutFinishing
    | NoProviderTookIt
    | InputDoesNotValidate
    | OrphanedByRestart
    | InterjectionTargetLost
    | HostReason(name: string)

  datatype Command =
    | Offer
    | Claim
    | RelayEvent(event: Event)
    | FinishStream
    | RequestCancel
    | Fail(code: FailCode, message: string)

  /** What happened to a run, in order: each command put on its record, with the
      two fields of the run its handler reads, and the end of its stream. */
  datatype Entry =
    | Did(command: Command, holder: Option<Key>, cancelRequested: bool)
    | EndOfStream
}
