/**
 * The polling commands: the process-wide INTERVAL, the single global
 * current_job, and the JobQueue's set of jobs that are still scheduled.
 * /setinterval changes INTERVAL, /run replaces the job, /stop removes it.
 */
module Scheduler {

  import opened Wrappers
  import opened PyBuiltins

  /** The interval used when DEFAULT_INTERVAL is not set. */
  const DefaultInterval := 3600

  const UsageText := "Uso corretto: /setinterval <secondi>"
  const StoppedText := "Polling fermato."
  const NothingRunningText := "Nessun polling attivo."

  function IntervalSetText(n: int): string {
    "Intervallo impostato a " + ShowInt(n) + " secondi."
  }

  function PollingStartedText(n: int): string {
    "Polling avviato ogni " + ShowInt(n) + " secondi."
  }

  /**
   * A repeating job made by run_repeating(send_deals, ...). The id stands
   * for the job object's identity: two jobs made with the same arguments
   * are still two jobs.
   */
  datatype Job = Job(id: nat, chatId: int, interval: int, first: int)

  class Bot {
    /** INTERVAL */
    var interval: int
    /** current_job */
    var currentJob: Option<Job>
    /** The jobs the JobQueue will still fire (none whose removal was scheduled). */
    var scheduled: set<Job>
    /** The id the next job gets. */
    var nextId: nat

    /** At most one job is ever scheduled, and it is current_job. */
    ghost predicate Valid()
      reads this
    {
      && scheduled == (if currentJob.Some? then {currentJob.value} else {})
      && (currentJob.Some? ==> currentJob.value.id < nextId)
    }

    /**
     * Module start-up: INTERVAL from DEFAULT_INTERVAL (already converted by
     * int()), 3600 when it is not set; no job.
     */
    constructor (configured: Option<int>)
      ensures Valid()
      ensures interval == (if configured.Some? then configured.value else DefaultInterval)
      ensures currentJob == None && scheduled == {}
    {
      interval := if configured.Some? then configured.value else DefaultInterval;
      currentJob := None;
      scheduled := {};
      nextId := 0;
    }

    /**
     * /setinterval: int() of the first argument becomes INTERVAL, with no
     * check of its sign. A missing argument (IndexError) or one that is not
     * an integer (ValueError) changes nothing and gets the usage reply. The
     * job, if any, keeps the interval it was made with.
     */
    method SetInterval(args: seq<string>) returns (reply: string)
      requires Valid()
      modifies this
      ensures Valid()
      ensures currentJob == old(currentJob) && scheduled == old(scheduled) && nextId == old(nextId)
      ensures |args| > 0 && ParseInt(args[0]).Some? ==>
        interval == ParseInt(args[0]).value && reply == IntervalSetText(interval)
      ensures |args| == 0 || ParseInt(args[0]).None? ==>
        interval == old(interval) && reply == UsageText
    {
      if |args| == 0 {
        return UsageText;
      }
      var parsed := ParseInt(args[0]);
      match parsed
      case None =>
        reply := UsageText;
      case Some(n) =>
        interval := n;
        reply := IntervalSetText(interval);
    }

    /**
     * /run from chat chatId: the current job, if any, is removed, and a new
     * job for this chat, repeating every INTERVAL seconds from now (first=0),
     * becomes the one scheduled job, whichever chat the old one was for.
     */
    method Run(chatId: int) returns (reply: string)
      requires Valid()
      modifies this
      ensures Valid()
      ensures currentJob == Some(Job(old(nextId), chatId, old(interval), 0))
      ensures scheduled == {currentJob.value}
      ensures old(currentJob).Some? ==> old(currentJob).value !in scheduled
      ensures interval == old(interval) && nextId == old(nextId) + 1
      ensures reply == PollingStartedText(interval)
    {
      if currentJob.Some? {
        // schedule_removal
        scheduled := scheduled - {currentJob.value};
      }
      var job := Job(nextId, chatId, interval, 0);
      nextId := nextId + 1;
      scheduled := scheduled + {job};
      currentJob := Some(job);
      reply := PollingStartedText(interval);
    }

    /**
     * /stop: with a job, it is removed and current_job is cleared; with none,
     * nothing changes and the reply says that nothing is running.
     */
    method Stop() returns (reply: string)
      requires Valid()
      modifies this
      ensures Valid()
      ensures currentJob == None && scheduled == {}
      ensures interval == old(interval) && nextId == old(nextId)
      ensures reply == if old(currentJob).Some? then StoppedText else NothingRunningText
    {
      if currentJob.Some? {
        // schedule_removal
        scheduled := scheduled - {currentJob.value};
        currentJob := None;
        reply := StoppedText;
      } else {
        reply := NothingRunningText;
      }
    }
  }

  /** /run twice in one chat: one job remains, and it is the second one. */
  method RunTwice(bot: Bot, chatId: int)
    requires bot.Valid()
    modifies bot
    ensures bot.Valid() && |bot.scheduled| == 1
    ensures forall j :: j in bot.scheduled ==> j.id == old(bot.nextId) + 1
  {
    var _ := bot.Run(chatId);
    var _ := bot.Run(chatId);
  }

  /**
   * The job is global, not per chat: /run from a second chat removes the
   * first chat's job, so the first chat is no longer polled.
   */
  method RunFromTwoChats(bot: Bot, first: int, second: int)
    requires bot.Valid() && first != second
    modifies bot
    ensures forall j :: j in bot.scheduled ==> j.chatId == second
    ensures |bot.scheduled| == 1
  {
    var _ := bot.Run(first);
    var _ := bot.Run(second);
  }

  /** The interval is read when the job is made: a later /setinterval does not reach it. */
  method IntervalFixedAtRun(bot: Bot, chatId: int, args: seq<string>)
    requires bot.Valid()
    modifies bot
    ensures bot.currentJob.Some? && bot.currentJob.value.interval == old(bot.interval)
  {
    var _ := bot.Run(chatId);
    var _ := bot.SetInterval(args);
  }

  /** /stop after /run leaves no job; a second /stop reports that nothing is running. */
  method StopTwice(bot: Bot, chatId: int) returns (second: string)
    requires bot.Valid()
    modifies bot
    ensures bot.scheduled == {} && second == NothingRunningText
  {
    var _ := bot.Run(chatId);
    var _ := bot.Stop();
    second := bot.Stop();
  }

  /** No sign check: "0" and "-5" are accepted and become the interval. */
  lemma NonPositiveIntervalsAccepted()
    ensures ParseInt("0") == Some(0)
    ensures ParseInt("-5") == Some(-5)
  {
    ParseShowInt(0);
    ParseShowInt(-5);
    assert ShowInt(0) == "0";
    assert ShowInt(-5) == "-5";
  }

  /**
   * /setinterval -5 is accepted: the interval becomes -5 and the reply
   * echoes it.
   */
  method NegativeIntervalSet(bot: Bot) returns (reply: string)
    requires bot.Valid()
    modifies bot
    ensures bot.interval == -5 && reply == IntervalSetText(-5)
  {
    NonPositiveIntervalsAccepted();
    reply := bot.SetInterval(["-5"]);
  }
}
