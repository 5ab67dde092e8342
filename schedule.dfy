/**
 * The schedule descriptor check of `setup_schedule`: the `schedule` hash must hold
 * exactly one key, one of the four kinds the Rufus scheduler offers, and the choice of
 * kind decides the extra scheduler options. The scheduler itself is not modelled.
 */
module Schedule {
  import opened Ruby

  /** `Schedule_types`. */
  const ScheduleTypes: seq<string> := ["cron", "every", "at", "in"]

  const InvalidScheduleMessage := "Invalid config. schedule hash must contain exactly one of the following keys - cron, at, every or in"

  /** The scheduler call `setup_schedule` makes: `@scheduler.send(kind, value, options)`. */
  datatype Plan = Plan(kind: string, value: Value, options: Dict)

  /** `{first_in: 0.01}` for a fixed-interval schedule, so that the first cycle runs at
      once rather than after a full interval; `{}` for the other kinds. */
  function Options(kind: string): Dict {
    if kind == "every" then [(SymbolKey("first_in"), Float(0.01))] else []
  }

  /** The validation in `setup_schedule`. A hash that does not have exactly one key makes
      the source refer to the undefined constant `Logstash::ConfigurationError`, which
      raises NameError; a single key of the wrong kind is a configuration error. */
  function SetupSchedule(schedule: Dict): (r: Result<Plan>)
    ensures r.Ok? <==> |schedule| == 1 && schedule[0].0.StringKey? && schedule[0].0.name in ScheduleTypes
    ensures |schedule| != 1 ==> r == Err(NameError)
    ensures |schedule| == 1 && r.Err? ==> r.error.ConfigurationError?
    ensures r.Ok? ==> r.value.kind == schedule[0].0.name && Get(schedule, schedule[0].0) == Some(r.value.value)
    ensures r.Ok? ==> (HasKey(r.value.options, SymbolKey("first_in")) <==> r.value.kind == "every")
    ensures r.Ok? && r.value.kind == "every" ==> Get(r.value.options, SymbolKey("first_in")) == Some(Float(0.01))
    ensures r.Ok? && r.value.kind != "every" ==> r.value.options == []
  {
    if |schedule| != 1 then Err(NameError)
    else
      var (key, value) := schedule[0];
      if !(key.StringKey? && key.name in ScheduleTypes) then Err(ConfigurationError(InvalidScheduleMessage))
      else Ok(Plan(key.name, value, Options(key.name)))
  }

  /** Each of `cron`, `every`, `at` and `in` alone is accepted with its value. */
  lemma EachKindAccepted(kind: string, value: Value)
    requires kind in ScheduleTypes
    ensures SetupSchedule([(StringKey(kind), value)]) == Ok(Plan(kind, value, Options(kind)))
  {
  }

  /** An empty schedule and one with two keys are both rejected. */
  lemma ScheduleKeyCountChecked(first: (Key, Value), second: (Key, Value))
    ensures SetupSchedule([]).Err?
    ensures SetupSchedule([first, second]).Err?
  {
  }

  /** `{"every" => "30s"}`, the schedule the plugin's tests use, fires first almost at once. */
  lemma EveryScheduleStartsAtOnce()
    ensures SetupSchedule([(StringKey("every"), Str("30s"))]) ==
            Ok(Plan("every", Str("30s"), [(SymbolKey("first_in"), Float(0.01))]))
  {
  }

  /** A symbol key is not one of the accepted kinds, even when it is spelt like one. */
  lemma SymbolKindRejected(value: Value)
    ensures SetupSchedule([(SymbolKey("every"), value)]).Err?
    ensures SetupSchedule([(SymbolKey("every"), value)]).error.ConfigurationError?
  {
  }
}
