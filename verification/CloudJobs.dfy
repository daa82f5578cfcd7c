/** The client that sends HTTP jobs one at a time, on its queues. */
module CloudJobs {
  import opened JobQueues
  import opened Options

  /** `PriorityJobQueues`.  Asking for the next job when there is none, which would end
      the program, gives `None`; asking for or removing the current one needs one. */
  class PriorityJobQueues<T> {
    var queues: seq<seq<T>>
    var size: nat
    var current: int

    ghost predicate Valid()
      reads this
    {
      size == Total(queues)
    }

    constructor (n: nat)
      ensures Valid() && queues == seq(n, _ => []) && current == -1
    {
      queues, size, current := seq(n, _ => []), 0, -1;
      new;
      TotalZero(queues);
    }

    method AppendQueue()
      requires Valid()
      modifies this
      ensures Valid() && queues == old(queues) + [[]] && size == old(size) && current == old(current)
    {
      TotalSnoc(queues, []);
      queues := queues + [[]];
    }

    method AppendJob(index: nat, job: T) returns (ok: bool)
      requires Valid()
      modifies this
      ensures Valid() && current == old(current) && ok == (index < |old(queues)|)
      ensures queues == if ok then old(queues)[index := old(queues)[index] + [job]] else old(queues)
    {
      if index >= |queues| { return false; }
      TotalUpdate(queues, index, queues[index] + [job]);
      queues := queues[index := queues[index] + [job]];
      size := size + 1;
      ok := true;
    }

    method HasJob() returns (has: bool)
      requires Valid()
      ensures has <==> First(queues) < |queues|
    {
      TotalZero(queues);
      has := size != 0;
    }

    predicate AtJob()
      reads this
    {
      0 <= current < |queues| && queues[current] != []
    }

    method CurrentJob() returns (job: T)
      requires AtJob()
      ensures job == queues[current][0]
    {
      job := queues[current][0];
    }

    /** What is done to the job through the reference `currentJob` returns. */
    method SetCurrentJob(job: T)
      requires Valid() && AtJob()
      modifies this
      ensures Valid() && current == old(current) && queues == old(queues)[current := [job] + old(queues)[current][1..]]
    {
      TotalUpdate(queues, current, [job] + queues[current][1..]);
      queues := queues[current := [job] + queues[current][1..]];
    }

    method NextJob() returns (job: Option<T>)
      requires Valid()
      modifies this
      ensures Valid() && queues == old(queues)
      ensures
        var k := First(queues);
        if k < |queues| then current == k && job == Some(queues[k][0]) else current == old(current) && job == None
    {
      var index := 0;
      while index < |queues|
        invariant index <= First(queues)
        invariant queues == old(queues) && current == old(current) && size == old(size)
      {
        if queues[index] != [] {
          current := index;
          return Some(queues[index][0]);
        }
        index := index + 1;
      }
      return None;
    }

    method PopJob()
      requires Valid() && AtJob()
      modifies this
      ensures Valid() && current == old(current) && queues == old(queues)[current := old(queues)[current][1..]]
    {
      TotalUpdate(queues, current, queues[current][1..]);
      queues := queues[current := queues[current][1..]];
      size := size - 1;
    }
  }

  lemma {:induction false} TotalSnoc<T>(qs: seq<seq<T>>, q: seq<T>)
    ensures Total(qs + [q]) == Total(qs) + |q|
  {
    if qs == [] {
      assert [q][1..] == [];
    } else {
      assert (qs + [q])[1..] == qs[1..] + [q];
      TotalSnoc(qs[1..], q);
    }
  }

  class CloudClient {
    const jobs: PriorityJobQueues<Job>
    /** What the session was told to send and has not answered. */
    var inFlight: seq<Request>

    ghost predicate Valid()
      reads this, jobs
    {
      jobs.Valid()
    }

    ghost function Now(): State
      reads this, jobs
    {
      State(jobs.queues, jobs.current, inFlight)
    }

    constructor (categories: nat)
      ensures Valid() && fresh(jobs) && Now() == Start(categories)
    {
      jobs := new PriorityJobQueues(categories);
      inFlight := [];
    }

    method SendNextHttp()
      requires Valid()
      modifies this, jobs
      ensures Valid() && Now() == SendNext(old(Now()))
    {
      var has := jobs.HasJob();
      if has {
        var next := jobs.NextJob();
        inFlight := inFlight + [next.value.request];
      }
    }

    method AddHttpJob(category: nat, job: Job)
      requires Valid()
      modifies this, jobs
      ensures Valid() && Now() == OnAdd(old(Now()), category, job)
    {
      var ok := jobs.AppendJob(category, job);
      if jobs.size == 1 { SendNextHttp(); }
    }

    /** `responseReceived` */
    method ResponseReceived(ok: bool)
      requires Valid() && Enabled(Now(), Respond(ok))
      modifies this, jobs
      ensures Valid() && Now() == OnRespond(old(Now()), ok)
    {
      inFlight := inFlight[1..];
      if !ok {
        var last := jobs.CurrentJob();
        if last.retryTimes <= 0 {
          jobs.PopJob();
        } else {
          jobs.SetCurrentJob(last.(retryTimes := last.retryTimes - 1));
        }
      } else {
        jobs.PopJob();
      }
      SendNextHttp();
    }

    /** `requestFailed`: the job stays and is sent again. */
    method RequestFailed()
      requires Valid() && Enabled(Now(), Fail)
      modifies this, jobs
      ensures Valid() && Now() == OnFail(old(Now()))
    {
      inFlight := inFlight[1..];
      SendNextHttp();
    }
  }
}
