/**
 * The session data of one conversation: the working `State` the roles keep
 * up to date, the chat messages, and the `Checkpoint` that persists both.
 * State and Checkpoint are updated in place by the runtime, so they are
 * classes; `StateValue` and `CheckpointValue` are their plain values.
 */
module Types {

  /** One chat message; the role is free text (no fixed set of roles). */
  datatype ChatMessage = ChatMessage(role: string, content: string)

  datatype StateValue = StateValue(
    goals: seq<string>,
    openLoops: seq<string>,
    decisions: seq<string>,
    constraints: seq<string>,
    episodeSummary: string,
    memoryTags: seq<string>,
    memoryRefs: seq<string>,
    capabilitiesGranted: seq<string>,
    capabilitiesPending: seq<string>)

  /** `State()` with every field at its default. */
  const DefaultState := StateValue([], [], [], [], "", [], [], [], [])

  class State {
    var goals: seq<string>
    var openLoops: seq<string>
    var decisions: seq<string>
    var constraints: seq<string>
    var episodeSummary: string
    var memoryTags: seq<string>
    var memoryRefs: seq<string>
    /** Ordered lists, not sets: a capability may be listed twice. */
    var capabilitiesGranted: seq<string>
    var capabilitiesPending: seq<string>

    function Value(): StateValue
      reads this
    {
      StateValue(goals, openLoops, decisions, constraints, episodeSummary,
                 memoryTags, memoryRefs, capabilitiesGranted, capabilitiesPending)
    }

    /** `State()`: eight empty lists and an empty summary. */
    constructor ()
      ensures Value() == DefaultState
      ensures goals == [] && openLoops == [] && decisions == [] && constraints == []
      ensures memoryTags == [] && memoryRefs == [] && episodeSummary == ""
      ensures capabilitiesGranted == [] && capabilitiesPending == []
    {
      goals, openLoops, decisions, constraints := [], [], [], [];
      episodeSummary := "";
      memoryTags, memoryRefs := [], [];
      capabilitiesGranted, capabilitiesPending := [], [];
    }

    /** `State(**fields)`: a state holding the given value. */
    constructor FromValue(v: StateValue)
      ensures Value() == v
    {
      goals, openLoops, decisions, constraints := v.goals, v.openLoops, v.decisions, v.constraints;
      episodeSummary := v.episodeSummary;
      memoryTags, memoryRefs := v.memoryTags, v.memoryRefs;
      capabilitiesGranted, capabilitiesPending := v.capabilitiesGranted, v.capabilitiesPending;
    }
  }

  datatype CheckpointValue = CheckpointValue(
    sessionId: string,
    revision: int,
    updatedTs: real,
    state: StateValue,
    recentMessages: seq<ChatMessage>,
    traceTail: seq<string>)

  class Checkpoint {
    var sessionId: string
    var revision: int
    var updatedTs: real
    const state: State
    var recentMessages: seq<ChatMessage>
    var traceTail: seq<string>

    function Value(): CheckpointValue
      reads this, state
    {
      CheckpointValue(sessionId, revision, updatedTs, state.Value(), recentMessages, traceTail)
    }

    /** `Checkpoint(session_id, revision, updated_ts, state)`: messages and trace tail default to empty. */
    constructor (sessionId: string, revision: int, updatedTs: real, state: State)
      ensures this.sessionId == sessionId && this.revision == revision
      ensures this.updatedTs == updatedTs && this.state == state
      ensures recentMessages == [] && traceTail == []
    {
      this.sessionId := sessionId;
      this.revision := revision;
      this.updatedTs := updatedTs;
      this.state := state;
      recentMessages := [];
      traceTail := [];
    }

    /** A checkpoint holding the given value, with a fresh State object. */
    constructor FromValue(v: CheckpointValue)
      ensures fresh(state) && Value() == v
    {
      sessionId := v.sessionId;
      revision := v.revision;
      updatedTs := v.updatedTs;
      state := new State.FromValue(v.state);
      recentMessages := v.recentMessages;
      traceTail := v.traceTail;
    }
  }
}
