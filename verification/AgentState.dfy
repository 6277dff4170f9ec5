// agent/state.go: what the agent remembers about its feeds between ticks and
// across restarts.
module AgentState {
  import opened Basics

  datatype FeedState = FeedState(startAt: int, hasRound: bool, lastRound: nat, hasValue: bool, lastValue: int,
                                 valueRound: nat, lastClaimAt: int)

  const UNKNOWN := FeedState(0, false, 0, false, 0, 0, 0)

  type Feeds = map<nat, FeedState>

  function Lookup(feeds: Feeds, id: nat): FeedState {
    if id in feeds then feeds[id] else UNKNOWN
  }

  /** The state file: the chain id it belongs to ("" in files written before it was kept) and the feeds. */
  datatype File = File(net: string, feeds: Feeds)

  /** The feeds a process on chain net starts with, given the file it finds. */
  function Loaded(file: Option<File>, net: string): Feeds {
    if file.None? || (file.value.net != "" && file.value.net != net) then map[] else file.value.feeds
  }

  class State {
    var net: string
    var feeds: Feeds
    var file: Option<File>

    /** LoadState. */
    constructor (file: Option<File>)
      ensures this.file == file
      ensures net == (if file.None? then "" else file.value.net)
      ensures feeds == (if file.None? then map[] else file.value.feeds)
    {
      this.file := file;
      net := if file.None? then "" else file.value.net;
      feeds := if file.None? then map[] else file.value.feeds;
    }

    /** Mutates one feed's state and no other. */
    method Update(id: nat, fn: FeedState -> FeedState)
      modifies this`feeds
      ensures feeds == old(feeds)[id := fn(Lookup(old(feeds), id))]
    {
      if id !in feeds {
        feeds := feeds[id := UNKNOWN];
      }
      feeds := feeds[id := fn(feeds[id])];
    }

    method Snapshot(id: nat) returns (fs: FeedState)
      ensures fs == Lookup(feeds, id)
    {
      if id in feeds {
        return feeds[id];
      }
      return UNKNOWN;
    }

    /** Forgets everything when the recorded chain is another one, and records the current one. */
    method ForChain(id: string) returns (reset: bool)
      modifies this`net, this`feeds
      ensures reset <==> old(net) != "" && old(net) != id
      ensures net == id && feeds == if reset then map[] else old(feeds)
    {
      reset := net != "" && net != id;
      if reset {
        feeds := map[];
      }
      net := id;
    }

    /** written says whether the file was replaced. */
    method Save(written: bool)
      modifies this`file
      ensures file == if written then Some(File(net, feeds)) else old(file)
    {
      if written {
        file := Some(File(net, feeds));
      }
    }

    /** Loading a file and then telling the state its chain gives the Loaded feeds. */
    static method Start(file: Option<File>, id: string) returns (s: State)
      ensures fresh(s) && s.net == id && s.feeds == Loaded(file, id) && s.file == file
    {
      s := new State(file);
      var reset := s.ForChain(id);
    }
  }
}
