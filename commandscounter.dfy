/** The CommandsCounter plugin (commandscounter/count.py): how many times
    each command was used and how many times it failed since the bot
    started, kept by two listeners and read back by `count`. */
module CommandsCounter {
  import opened Wrappers
  import opened Strings

  /** The `{count, error}` record kept per command name. */
  datatype Counter = Counter(count: nat, error: nat)

  /** Which listener saw the command. */
  datatype Listener = Invoked | Errored

  /** One call of a listener: the command's name and whether its author
      is a bot. */
  datatype Event = Event(listener: Listener, command: string, authorIsBot: bool)

  /** `on_command` and `on_command_error` on values
      (commandscounter/count.py:68-88): a command seen for the first time
      starts at one use, and at one error too when it was first seen
      failing. */
  function Step(commands: map<string, Counter>, ev: Event): map<string, Counter> {
    if ev.authorIsBot then commands
    else if ev.command !in commands then commands[ev.command := Counter(1, if ev.listener == Errored then 1 else 0)]
    else
      var c := commands[ev.command];
      if ev.listener == Invoked then commands[ev.command := c.(count := c.count + 1)]
      else commands[ev.command := c.(error := c.error + 1)]
  }

  /** What one listener call does: bots change nothing, other commands are
      never touched, the first call creates the record and later calls
      raise exactly one of the two numbers by one. */
  lemma StepEffects(commands: map<string, Counter>, ev: Event)
    ensures var after := Step(commands, ev);
      && (ev.authorIsBot ==> after == commands)
      && (forall k :: k != ev.command ==> (k in after <==> k in commands) && (k in commands ==> after[k] == commands[k]))
      && (!ev.authorIsBot && ev.command !in commands && ev.listener == Invoked ==> after[ev.command] == Counter(1, 0))
      && (!ev.authorIsBot && ev.command !in commands && ev.listener == Errored ==> after[ev.command] == Counter(1, 1))
      && (!ev.authorIsBot && ev.command in commands && ev.listener == Invoked ==>
            after[ev.command] == Counter(commands[ev.command].count + 1, commands[ev.command].error))
      && (!ev.authorIsBot && ev.command in commands && ev.listener == Errored ==>
            after[ev.command] == Counter(commands[ev.command].count, commands[ev.command].error + 1))
  {
  }

  /** The listener calls in order, from an empty table. */
  function Replay(events: seq<Event>): map<string, Counter>
    decreases |events|
  {
    if events == [] then map[] else Step(Replay(events[..|events| - 1]), events[|events| - 1])
  }

  /** A call the counter takes into account for `name`. */
  predicate Counts(ev: Event, name: string) {
    !ev.authorIsBot && ev.command == name
  }

  /** Some call counts for `name`. */
  predicate Seen(events: seq<Event>, name: string) {
    exists i :: 0 <= i < |events| && Counts(events[i], name)
  }

  /** The number of counted calls of one listener for `name`. */
  function Tally(events: seq<Event>, name: string, listener: Listener): nat
    decreases |events|
  {
    if events == [] then 0
    else
      var last := events[|events| - 1];
      Tally(events[..|events| - 1], name, listener) + (if Counts(last, name) && last.listener == listener then 1 else 0)
  }

  /** The first counted call for `name` came from `on_command_error`. */
  function FirstIsError(events: seq<Event>, name: string): bool
    decreases |events|
  {
    if events == [] then false
    else
      var prefix := events[..|events| - 1];
      var last := events[|events| - 1];
      if Seen(prefix, name) then FirstIsError(prefix, name)
      else Counts(last, name) && last.listener == Errored
  }

  /** The table after any run of listener calls, against an independent
      count of the calls: a name is present iff some call counted for it;
      its `error` is the number of failures, and its `count` the number of
      uses plus one when the first call seen was a failure. */
  lemma {:induction false} ReplayCounts(events: seq<Event>, name: string)
    ensures name in Replay(events) <==> Seen(events, name)
    ensures name in Replay(events) ==>
      Replay(events)[name] == Counter(Tally(events, name, Invoked) + (if FirstIsError(events, name) then 1 else 0), Tally(events, name, Errored))
    decreases |events|
  {
    if events != [] {
      var prefix := events[..|events| - 1];
      var last := events[|events| - 1];
      ReplayCounts(prefix, name);
      assert Seen(events, name) <==> Seen(prefix, name) || Counts(last, name) by {
        if Seen(events, name) && !Counts(last, name) {
          var i :| 0 <= i < |events| && Counts(events[i], name);
          assert i < |prefix| && prefix[i] == events[i];
        }
        if Seen(prefix, name) {
          var i :| 0 <= i < |prefix| && Counts(prefix[i], name);
          assert events[i] == prefix[i];
        }
      }
      if !Seen(prefix, name) {
        assert Tally(prefix, name, Invoked) == 0 && Tally(prefix, name, Errored) == 0 by {
          TallyUnseen(prefix, name);
        }
      }
    }
  }

  /** No call counted for `name`, so both tallies are zero. */
  lemma {:induction false} TallyUnseen(events: seq<Event>, name: string)
    requires !Seen(events, name)
    ensures Tally(events, name, Invoked) == 0 && Tally(events, name, Errored) == 0
    decreases |events|
  {
    if events != [] {
      var prefix := events[..|events| - 1];
      assert !Counts(events[|events| - 1], name);
      TallyUnseen(prefix, name);
    }
  }

  /** What `count` answers. */
  datatype CountMessage =
    | Used(command: string, count: nat, errors: Option<nat>)   // "... has been used N time[, and sent an error E time]."
    | NotUsedYet(command: string)                               // "... hasn't been used, yet..."

  /** The plugin: the table, updated in place by the listeners. */
  class CommandsCounter {
    var commands: map<string, Counter>

    constructor ()
      ensures commands == map[]
    {
      commands := map[];
    }

    /** `on_command` (commandscounter/count.py:68-77). */
    method OnCommand(command: string, authorIsBot: bool)
      modifies this
      ensures commands == Step(old(commands), Event(Invoked, command, authorIsBot))
    {
      if !authorIsBot {
        if command !in commands {
          commands := commands[command := Counter(1, 0)];
          return;
        }
        commands := commands[command := commands[command].(count := commands[command].count + 1)];
      }
    }

    /** `on_command_error` (commandscounter/count.py:79-88). */
    method OnCommandError(command: string, authorIsBot: bool)
      modifies this
      ensures commands == Step(old(commands), Event(Errored, command, authorIsBot))
    {
      if !authorIsBot {
        if command !in commands {
          commands := commands[command := Counter(1, 1)];
          return;
        }
        commands := commands[command := commands[command].(error := commands[command].error + 1)];
      }
    }

    /** `count` (commandscounter/count.py:35-55): the query is lower-cased
        before the lookup, and the failures are mentioned only when there
        was at least one. */
    method Count(command: string) returns (message: CountMessage)
      ensures message.command == Lower(command)
      ensures message.Used? <==> Lower(command) in commands
      ensures message.Used? ==> message.count == commands[Lower(command)].count
      ensures message.Used? ==> (message.errors.Some? <==> commands[Lower(command)].error >= 1)
      ensures message.Used? && message.errors.Some? ==> message.errors.value == commands[Lower(command)].error
    {
      var strCommand := Lower(command);
      if strCommand in commands {
        var errors: Option<nat> := None;
        if commands[strCommand].error >= 1 {
          errors := Some(commands[strCommand].error);
        }
        message := Used(strCommand, commands[strCommand].count, errors);
      } else {
        message := NotUsedYet(strCommand);
      }
    }
  }
}
