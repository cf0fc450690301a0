/** The body of `main`: load the configuration, build the list of coroutines
    the command line asks for, and hand them to `asyncio.gather`, or report
    that there is nothing to run. */
module Tasks {
  import opened Wrappers
  import Config

  /** The namespace `parse_args` returns. */
  datatype Args = Args(me: bool, myChats: bool, run: bool, pattern: Option<string>, timer: int)

  /** Default of `--timer`. */
  const DEFAULT_TIMER: int := 15

  /** The coroutines `main` can schedule. */
  datatype Task =
    | ShowProfile                  // bot.show_profile()
    | ListChats                    // bot.list_chats()
    | RunBot(params: Config.ClientParams) // bot.run_bot(params)
    | DisconnectAfter(seconds: int) // bot.disconnect_after(args.timer)

  /** Why `main` stops before gathering anything. */
  datatype StartError =
    | ConfigFailed(error: Config.ConfigError) // raised by load_env_variables
    | NoSetMethod                             // params.set(...): ClientParams has no `set`
    | EndTimeOverflow                         // datetime.now() + timedelta(seconds=timer): OverflowError

  /** Position of each kind of task in the list `main` builds. */
  function Rank(t: Task): nat
  {
    match t
    case ShowProfile => 0
    case ListChats => 1
    case RunBot(_) => 2
    case DisconnectAfter(_) => 3
  }

  /** `if args.pattern:` -- `None` and the empty string are both false. */
  predicate OverridesPattern(args: Args)
  {
    args.pattern.Some? && args.pattern.value != ""
  }

  /** The tasks the four command-line inputs select: the profile iff `me`,
      the chat list iff `myChats`, the bot iff `run`, and the disconnect
      timer iff `run` and `timer > 0`; at most one of each, in that order. */
  function SelectTasks(me: bool, myChats: bool, run: bool, timer: int, params: Config.ClientParams): (tasks: seq<Task>)
    ensures ShowProfile in tasks <==> me
    ensures ListChats in tasks <==> myChats
    ensures forall p :: RunBot(p) in tasks <==> run && p == params
    ensures forall s :: DisconnectAfter(s) in tasks <==> run && timer > 0 && s == timer
    ensures forall i, j :: 0 <= i < j < |tasks| ==> Rank(tasks[i]) < Rank(tasks[j])
    ensures |tasks| == (if me then 1 else 0) + (if myChats then 1 else 0)
                       + (if run then (if timer > 0 then 2 else 1) else 0)
  {
    (if me then [ShowProfile] else [])
    + (if myChats then [ListChats] else [])
    + (if run then [RunBot(params)] + (if timer > 0 then [DisconnectAfter(timer)] else []) else [])
  }

  /** The list is empty, and `main` prints "No tasks to run", exactly when
      none of `--me`, `--my-chats`, `--run` is given; the timer alone
      schedules nothing. */
  lemma NoTasksIff(me: bool, myChats: bool, run: bool, timer: int, params: Config.ClientParams)
    ensures SelectTasks(me, myChats, run, timer, params) == [] <==> !me && !myChats && !run
  {
  }

  /** The `tasks.append` sequence of `main`. A non-empty `--pattern` reaches
      `params.set(...)`, which raises before the bot is scheduled. */
  method BuildTasks(args: Args, params: Config.ClientParams) returns (r: Result<seq<Task>, StartError>)
    ensures OverridesPattern(args) ==> r == Err(NoSetMethod)
    ensures !OverridesPattern(args) ==> r == Ok(SelectTasks(args.me, args.myChats, args.run, args.timer, params))
  {
    var tasks: seq<Task> := [];
    if args.me {
      tasks := tasks + [ShowProfile];
    }
    if args.myChats {
      tasks := tasks + [ListChats];
    }
    if OverridesPattern(args) {
      return Err(NoSetMethod);
    }
    ghost var front := tasks;
    assert front == (if args.me then [ShowProfile] else []) + (if args.myChats then [ListChats] else []);
    if args.run {
      tasks := tasks + [RunBot(params)];
      if args.timer > 0 {
        tasks := tasks + [DisconnectAfter(args.timer)];
      }
    }
    assert tasks == front + (if args.run then [RunBot(params)] + (if args.timer > 0 then [DisconnectAfter(args.timer)] else []) else []);
    return Ok(tasks);
  }

  /** A clock reading, `datetime.now()`, in microseconds since
      0001-01-01 00:00:00; the latest `datetime` is 9999-12-31
      23:59:59.999999. */
  const MAX_INSTANT: int := 3652059 * 86400 * 1000000 - 1

  /** Whether `datetime.now() + timedelta(seconds=timer)`, which `main`
      prints as the end time, stays within the years 1 to 9999. Outside them
      the addition raises `OverflowError`. (A `timedelta` beyond its own
      limit of 999999999 days raises the same error, and every such timer
      is already outside the `datetime` range.) */
  predicate EndTimeInRange(now: int, timer: int)
  {
    0 <= now + timer * 1000000 <= MAX_INSTANT
  }

  /** The default timer never overflows before the last 15 seconds of
      year 9999; a zero timer never overflows; a timer longer than the whole
      `datetime` range, in either direction, always does. */
  lemma EndTimeBounds(now: int, timer: int)
    requires 0 <= now <= MAX_INSTANT
    ensures timer == 0 ==> EndTimeInRange(now, timer)
    ensures timer == DEFAULT_TIMER && now <= MAX_INSTANT - 15 * 1000000 ==> EndTimeInRange(now, timer)
    ensures timer > MAX_INSTANT / 1000000 + 1 || timer < -(MAX_INSTANT / 1000000 + 1) ==> !EndTimeInRange(now, timer)
  {
  }

  /** At 2026-01-01 00:00:00, `--timer 300000000000` lies past year 9999
      and `--timer -70000000000` before year 1; both raise. */
  lemma EndTimeOverflowExamples()
    ensures !EndTimeInRange(739616 * 86400 * 1000000, 300000000000)
    ensures !EndTimeInRange(739616 * 86400 * 1000000, -70000000000)
    ensures EndTimeInRange(739616 * 86400 * 1000000, DEFAULT_TIMER)
  {
  }

  /** What `main` ends in. */
  datatype Outcome =
    | Gathered(apiId: int, apiHash: string, tasks: seq<Task>) // asyncio.gather(*tasks) on a client for these credentials
    | NothingToRun                                           // "No tasks to run. Use --help for options."
    | Failed(error: StartError)

  /** `main` with the command line, the `.env` dictionary and the clock
      reading `now` already taken. Before gathering, `main` prints the end
      time `now + timer`, which raises when it leaves the `datetime` range. */
  method StartUp(args: Args, env: Config.Env, now: int) returns (o: Outcome)
    requires 0 <= now <= MAX_INSTANT
    ensures Config.LoadConfig(env).Err? ==> o == Failed(ConfigFailed(Config.LoadConfig(env).error))
    ensures Config.LoadConfig(env).Ok? && OverridesPattern(args) ==> o == Failed(NoSetMethod)
    ensures o.Gathered? ==>
      && Config.LoadConfig(env).Ok?
      && o.apiId == Config.LoadConfig(env).value.apiId
      && o.apiHash == Config.LoadConfig(env).value.apiHash
      && o.tasks == SelectTasks(args.me, args.myChats, args.run, args.timer, Config.LoadConfig(env).value.params)
      && o.tasks != []
    ensures o.Gathered? <==>
      && Config.LoadConfig(env).Ok? && !OverridesPattern(args) && (args.me || args.myChats || args.run)
      && EndTimeInRange(now, args.timer)
    ensures o == Failed(EndTimeOverflow) <==>
      && Config.LoadConfig(env).Ok? && !OverridesPattern(args) && (args.me || args.myChats || args.run)
      && !EndTimeInRange(now, args.timer)
    ensures o.NothingToRun? <==> Config.LoadConfig(env).Ok? && !OverridesPattern(args) && !args.me && !args.myChats && !args.run
  {
    var loaded := Config.LoadConfig(env);
    if loaded.Err? {
      return Failed(ConfigFailed(loaded.error));
    }
    var settings := loaded.value;
    var built := BuildTasks(args, settings.params);
    if built.Err? {
      return Failed(built.error);
    }
    var tasks := built.value;
    NoTasksIff(args.me, args.myChats, args.run, args.timer, settings.params);
    if tasks == [] {
      o := NothingToRun;
    } else if !EndTimeInRange(now, args.timer) {
      o := Failed(EndTimeOverflow);
    } else {
      o := Gathered(settings.apiId, settings.apiHash, tasks);
    }
  }

  /** `--run` alone schedules the bot and a disconnect after the default
      15 seconds; `--timer 0 --run` schedules the bot only. */
  lemma TimerExamples(params: Config.ClientParams)
    ensures SelectTasks(false, false, true, DEFAULT_TIMER, params) == [RunBot(params), DisconnectAfter(15)]
    ensures SelectTasks(false, false, true, 0, params) == [RunBot(params)]
    ensures SelectTasks(true, true, false, DEFAULT_TIMER, params) == [ShowProfile, ListChats]
  {
  }
}
