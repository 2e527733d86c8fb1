/** The agents over the group channel, where each hears the whole merged stream, itself included. */
module GroupSessions {
  import opened Options
  import opened Scenarios
  import opened Wire
  import opened Relay
  import opened Execution
  import opened Executors
  import opened Multicast
  import opened EchoedStreams
  import opened Echoes
  import opened Rooms
  import opened Conversations

  /** An agent's entry is the next thing it emits on the merged stream before it. */
  ghost predicate SpokenNext<M>(react: (M, Line) -> Reaction<M>, start: map<string, M>, log: seq<Entry>, entry: Entry) {
    entry.FromAgent? ==>
      && entry.name in start
      && entry.forwarded == Translate(entry.response, entry.name)
      && var events := Events(react, Boot(entry.name, start[entry.name]), Merged(log));
         |Said(log, entry.name)| < |events| && events[|Said(log, entry.name)|] == entry.response
  }

  ghost predicate SpokenInGroup<M>(react: (M, Line) -> Reaction<M>, start: map<string, M>, log: seq<Entry>) {
    log == [] ||
    (SpokenInGroup(react, start, log[..|log| - 1]) && SpokenNext(react, start, log[..|log| - 1], log[|log| - 1]))
  }

  lemma {:induction false} EveryoneSpeaksForThemselves<M>(react: (M, Line) -> Reaction<M>, start: map<string, M>, log: seq<Entry>, name: string)
    requires SpokenInGroup(react, start, log) && name in start
    ensures SpeaksForItself(react, name, start[name], log)
  {
    if log != [] {
      EveryoneSpeaksForThemselves(react, start, log[..|log| - 1], name);
    }
  }

  ghost predicate AllDeaf<M(!new)>(react: (M, Line) -> Reaction<M>, start: map<string, M>) {
    forall n :: n in start ==> DeafToItself(react, n, start[n])
  }

  /** If no agent reacts to its own messages, then in any log every agent's entry is its next emission on
      the merged stream exactly if it is its next emission on its own projection. */
  lemma {:induction false} SameLogs<M(!new)>(react: (M, Line) -> Reaction<M>, start: map<string, M>, log: seq<Entry>)
    requires AllDeaf(react, start)
    ensures SpokenInGroup(react, start, log) <==> AllJustified(react, start, log)
  {
    if log != [] {
      var init, last := log[..|log| - 1], log[|log| - 1];
      SameLogs(react, start, init);
      if SpokenInGroup(react, start, init) && last.FromAgent? && last.name in start {
        EveryoneSpeaksForThemselves(react, start, init, last.name);
        MergedStreamIsProjection(react, last.name, start[last.name], init);
      }
    }
  }

  lemma AgentsAreDeaf(sc: Scenario)
    requires NamesFit(sc) && TextsFit(sc)
    ensures AllDeaf(Behaviour(sc), Memories(sc))
  {
    MemoriesFit(sc);
    forall n | n in Memories(sc)
      ensures DeafToItself(Behaviour(sc), n, Memories(sc)[n])
    {
      AgentsAreDeafToThemselves(sc, Memories(sc)[n]);
    }
  }

  /** So it is with the incident agents: whatever is proved of logs in which every agent's entry is its
      next emission over point-to-point streams holds of those in which it is over the group channel. */
  lemma IncidentLogsAreTheSame(sc: Scenario, log: seq<Entry>)
    requires NamesFit(sc) && TextsFit(sc)
    ensures SpokenInGroup(Behaviour(sc), Memories(sc), log) <==> Spoken(sc, log)
  {
    AgentsAreDeaf(sc);
    SameLogs(Behaviour(sc), Memories(sc), log);
  }

  /** For one, there is no broadcast storm over the group channel either, echoes and all. */
  lemma NoStormInGroup(sc: Scenario, log: seq<Entry>)
    requires Fits(sc) && SpokenInGroup(Behaviour(sc), Memories(sc), log)
    ensures AgentTexts(log) <= ClientAlarms(log) + |sc.logs| + 3
    ensures |Emissions(log)| <= ClientAlarms(log) + |sc.logs| + 3 + 8
  {
    IncidentLogsAreTheSame(sc, log);
    NoBroadcastStorm(sc, log);
  }
}
