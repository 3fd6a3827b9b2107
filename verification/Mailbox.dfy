/** The mailbox between the server and the phone: one pending command, and a waiter per inference job. */
module Mailbox {
  import opened Common

  datatype Command = NoCommand | Wake | Stop | Infer

  /** The outcome of a job, as the phone reports it. */
  datatype Outcome = Outcome(job: string, content: string, error: string, latency: int)

  /** What the phone is told when it syncs. */
  datatype Response = Response(command: Command, ram: int, job: string, prompt: string)

  /** A channel with room for one outcome. */
  datatype Channel = Channel(job: string, buffer: seq<Outcome>)

  const CAPACITY := 1

  /** A channel is its position in the list of all channels ever made. */
  datatype Box = Box(pending: Response, waiters: map<string, nat>, channels: seq<Channel>)

  const NOTHING := Response(NoCommand, 0, "", "")
  const EMPTY := Box(NOTHING, map[], [])

  function QueueWake(b: Box, ram: int): Box {
    b.(pending := Response(Wake, ram, "", ""))
  }

  /** The memory request of an earlier wake stays, but is not read for a stop. */
  function QueueStop(b: Box): Box {
    b.(pending := Response(Stop, b.pending.ram, "", ""))
  }

  function QueueInfer(b: Box, job: string, prompt: string): Box {
    Box(Response(Infer, 0, job, prompt), b.waiters[job := |b.channels|], b.channels + [Channel(job, [])])
  }

  /** The response leaves out the fields that are not the command's own. */
  function ResponseTo(b: Box): Response {
    match b.pending.command
    case NoCommand => NOTHING
    case Wake => Response(Wake, b.pending.ram, "", "")
    case Stop => Response(Stop, 0, "", "")
    case Infer => Response(Infer, 0, b.pending.job, b.pending.prompt)
  }

  function Take(b: Box): Box {
    b.(pending := NOTHING)
  }

  /** The channel the report would be sent to has room, or there is none to send to. */
  predicate CanReport(b: Box, o: Outcome) {
    o.job != "" && o.job in b.waiters && b.waiters[o.job] < |b.channels| ==> |b.channels[b.waiters[o.job]].buffer| < CAPACITY
  }

  /** A report without a job id, or for a job nobody is registered for, changes nothing here. */
  function Report(b: Box, o: Outcome): Box {
    if o.job == "" || o.job !in b.waiters || b.waiters[o.job] >= |b.channels| then b
    else
      var c := b.waiters[o.job];
      b.(channels := b.channels[c := b.channels[c].(buffer := b.channels[c].buffer + [o])], waiters := b.waiters - {o.job})
  }

  function Receive(b: Box, c: nat): Box
    requires c < |b.channels| && b.channels[c].buffer != []
  {
    b.(channels := b.channels[c := b.channels[c].(buffer := b.channels[c].buffer[1..])])
  }

  function Forget(b: Box, job: string): Box {
    b.(waiters := b.waiters - {job})
  }

  /** The package's variables; each method is one critical section. */
  class Runtime {
    var pendingCommand: Command
    var pendingRam: int
    var pendingJob: string
    var pendingPrompt: string
    var waiters: map<string, nat>
    var channels: seq<Channel>

    function Contents(): Box
      reads this
    {
      Box(Response(pendingCommand, pendingRam, pendingJob, pendingPrompt), waiters, channels)
    }

    constructor ()
      ensures Contents() == EMPTY
    {
      pendingCommand, pendingRam, pendingJob, pendingPrompt := NoCommand, 0, "", "";
      waiters, channels := map[], [];
    }

    method Wake(effective: int)
      modifies this
      ensures Contents() == QueueWake(old(Contents()), effective)
    {
      pendingCommand := Command.Wake;
      pendingRam := effective;
      pendingJob := "";
      pendingPrompt := "";
    }

    method Stop()
      modifies this
      ensures Contents() == QueueStop(old(Contents()))
    {
      pendingCommand := Command.Stop;
      pendingJob := "";
      pendingPrompt := "";
    }

    method Infer(job: string, prompt: string)
      modifies this
      ensures Contents() == QueueInfer(old(Contents()), job, prompt)
      ensures job in waiters && channels[waiters[job]] == Channel(job, [])
    {
      pendingCommand := Command.Infer;
      pendingJob := job;
      pendingPrompt := prompt;
      pendingRam := 0;
      channels := channels + [Channel(job, [])];
      waiters := waiters[job := |channels| - 1];
    }

    method LookUp(job: string) returns (c: Option<nat>)
      ensures c == if job in waiters then Some(waiters[job]) else None
    {
      return if job in waiters then Some(waiters[job]) else None;
    }

    method UpdateReport(o: Outcome)
      requires CanReport(Contents(), o)
      requires forall job :: job in waiters ==> waiters[job] < |channels|
      modifies this`waiters, this`channels
      ensures Contents() == Report(old(Contents()), o)
      ensures o.job != "" && o.job in old(waiters) ==>
                var c := old(waiters)[o.job];
                waiters == old(waiters) - {o.job} && channels == old(channels)[c := Channel(old(channels)[c].job, old(channels)[c].buffer + [o])]
      ensures o.job == "" || o.job !in old(waiters) ==> waiters == old(waiters) && channels == old(channels)
    {
      if o.job != "" && o.job in waiters {
        var c := waiters[o.job];
        channels := channels[c := channels[c].(buffer := channels[c].buffer + [o])];
        waiters := waiters - {o.job};
      }
    }

    method TakeSyncResponse() returns (r: Response)
      modifies this
      ensures Contents() == Take(old(Contents()))
      ensures r == ResponseTo(old(Contents()))
      ensures pendingCommand == NoCommand && waiters == old(waiters) && channels == old(channels)
      ensures r.command == old(pendingCommand)
      ensures r.ram == if old(pendingCommand) == Command.Wake then old(pendingRam) else 0
      ensures (r.job, r.prompt) == if old(pendingCommand) == Command.Infer then (old(pendingJob), old(pendingPrompt)) else ("", "")
    {
      var cmd, ram, job, prompt := pendingCommand, pendingRam, pendingJob, pendingPrompt;
      pendingCommand, pendingRam, pendingJob, pendingPrompt := NoCommand, 0, "", "";
      r := Response(cmd, 0, "", "");
      match cmd
      case Wake => r := r.(ram := ram);
      case Infer => r := r.(job := job, prompt := prompt);
      case _ =>
    }
  }
}
