// The event administration console: its command table, the search in it, and
// the splitting of command lines.
module AdminConsole {
  import opened Outcomes
  import opened Text
  import opened Scanning

  const COMMANDS: seq<string> := [
    "cg", "connect", "create_channel", "create_profile", "create_typed_channel", "ct", "destroy",
    "display_channel_profile", "dp", "exit", "h", "help", "lc", "list_created_channel", "list_managed_channel",
    "list_managed_channel_profile", "lm", "lp", "remove_profile", "rm", "s", "save_profile", "stop_ec_manager",
    "u", "update_profile", "v", "verbose", "x"
  ]

  const NB_COMMANDS: nat := 28

  // What runOperation does with a command.
  datatype Outcome = Skipped | Runs(index: nat) | UnknownCommand | EmptyCommand

  function LinearSearch(table: seq<string>, key: string): (r: Option<nat>)
    ensures r.Some? ==> r.value < |table| && table[r.value] == key && key !in table[..r.value]
    ensures r.None? <==> key !in table
  {
    if table == [] then None
    else if table[0] == key then Some(0)
    else
      match LinearSearch(table[1..], key)
      case None => None
      case Some(i) =>
        assert forall k | 0 <= k < i :: table[k + 1] == table[1..][k];
        Some(i + 1)
  }

  // strcmp sees the command up to its first NUL.
  ghost function Dispatch(table: seq<string>, op: string): Outcome {
    if op != "" && op[0] == '#' then Skipped
    else
      match LinearSearch(table, CString(op))
      case Some(i) => Runs(i)
      case None => if op == "" then EmptyCommand else UnknownCommand
  }

  // The binary search finds what a linear search finds, in any sorted table.
  method RunOperation(table: seq<string>, op: string) returns (r: Outcome)
    requires Ascending(table)
    ensures r == Dispatch(table, op)
    ensures r == Skipped <==> op != "" && op[0] == '#'
    ensures r.Runs? <==> r != Skipped && CString(op) in table
    ensures r.Runs? ==> r.index < |table| && table[r.index] == CString(op)
    ensures r == EmptyCommand <==> op == "" && "" !in table
  {
    var l, h := 0, |table|;
    if op != "" && op[0] == '#' {
      return Skipped;
    }
    var key := CString(op);
    while l < h
      invariant 0 <= l <= h <= |table|
      invariant forall k | 0 <= k < l :: Less(table[k], key)
      invariant forall k | h <= k < |table| :: Less(key, table[k])
    {
      var m := (l + h) / 2;
      if table[m] == key {
        FoundOnce(table, key, m);
        return Runs(m);
      }
      SplitAt(table, key, m);
      if Less(key, table[m]) {
        h := m;
      } else {
        l := m + 1;
      }
    }
    forall k | 0 <= k < |table| ensures table[k] != key {
      LessIrreflexive(key);
    }
    if op != "" {
      r := UnknownCommand;
    } else {
      r := EmptyCommand;
    }
  }

  lemma FoundOnce(table: seq<string>, key: string, m: nat)
    requires Ascending(table) && m < |table| && table[m] == key
    ensures LinearSearch(table, key) == Some(m)
  {
    forall i | 0 <= i < |table| && i != m ensures table[i] != key {
      LessIrreflexive(key);
    }
  }

  lemma SplitAt(table: seq<string>, key: string, m: nat)
    requires Ascending(table) && m < |table| && table[m] != key
    ensures Less(key, table[m]) || Less(table[m], key)
    ensures Less(key, table[m]) ==> forall k | m <= k < |table| :: Less(key, table[k])
    ensures !Less(key, table[m]) ==> forall k | 0 <= k <= m :: Less(table[k], key)
  {
    LessTotal(key, table[m]);
    forall k | m <= k < |table| && Less(key, table[m]) ensures Less(key, table[k]) {
      if m < k { LessTransitive(key, table[m], table[k]); }
    }
    forall k | 0 <= k <= m && Less(table[m], key) ensures Less(table[k], key) {
      if k < m { LessTransitive(table[k], table[m], key); }
    }
  }

  // ----- The shipped table -----

  // Two texts that agree up to k and then differ in order.
  lemma LessAt(a: string, b: string, k: nat)
    requires k <= |a| && k < |b| && a[..k] == b[..k]
    requires k == |a| || a[k] < b[k]
    ensures Less(a, b)
  {
    assert DiffersAt(a, b, k);
    LessMeans(a, b);
  }

  lemma {:induction false} NeighboursSuffice(keys: seq<string>)
    requires forall i | 0 <= i < |keys| - 1 :: Less(keys[i], keys[i + 1])
    ensures Ascending(keys)
    decreases |keys|
  {
    if |keys| > 1 {
      var n := |keys| - 1;
      NeighboursSuffice(keys[..n]);
      forall i, j | 0 <= i < j < |keys| ensures Less(keys[i], keys[j]) {
        if j == n {
          if i < n - 1 {
            assert keys[..n][i] == keys[i] && keys[..n][n - 1] == keys[n - 1];
            LessTransitive(keys[i], keys[n - 1], keys[n]);
          }
        } else {
          assert keys[..n][i] == keys[i] && keys[..n][j] == keys[j];
        }
      }
    }
  }

  // The position at which each command differs from the next one.
  const DIFFERS: seq<nat> := [1, 1, 7, 7, 1, 0, 1, 1, 0, 0, 1, 0, 1, 5, 20, 1, 1, 0, 1, 0, 1, 1, 0, 1, 0, 1, 0]

  // The table is in the order the search relies on, and as long as declared.
  lemma CommandsSorted()
    ensures Ascending(COMMANDS) && |COMMANDS| == NB_COMMANDS
  {
    hide Less;
    forall i | 0 <= i < 27 ensures Less(COMMANDS[i], COMMANDS[i + 1]) {
      Neighbours(i);
    }
    NeighboursSuffice(COMMANDS);
  }

  lemma Neighbours(i: nat)
    requires i < 27
    ensures Less(COMMANDS[i], COMMANDS[i + 1])
  {
    hide Less;
    if i < 14 { EarlyNeighbours(i); } else { LateNeighbours(i); }
  }

  lemma EarlyNeighbours(i: nat)
    requires i < 14
    ensures Less(COMMANDS[i], COMMANDS[i + 1])
  {
    hide Less;
    LessAt(COMMANDS[i], COMMANDS[i + 1], DIFFERS[i]);
  }

  lemma LateNeighbours(i: nat)
    requires 14 <= i < 27
    ensures Less(COMMANDS[i], COMMANDS[i + 1])
  {
    hide Less;
    LessAt(COMMANDS[i], COMMANDS[i + 1], DIFFERS[i]);
  }

  // ----- Splitting a line -----

  method SplitLine(line: string) returns (command: string, arg: string)
    ensures command == "" ==> Tokens(line) == [] && arg == ""
    ensures command != "" ==> Tokens(line) == [command] + Tokens(arg)
    ensures arg == "" || NotSpace(arg[0])
    ensures |arg| <= |line| && arg == line[|line| - |arg|..]
  {
    hide Tokens, Find;
    command, arg := "", "";
    var i := FindFrom(line, 0, NotSpace);
    assert line[0..] == line;
    FindSlice(line, 0, NotSpace);
    NextWord(line, 0);
    var j := FindFrom(line, i, IsSpace);
    if i != |line| {
      command := line[i..j];
    }
    var k := FindFrom(line, j, NotSpace);
    if k != |line| {
      arg := line[k..];
    }
    FindSlice(line, i, IsSpace);
    FindSlice(line, j, NotSpace);
    TokensSkip(line[j..]);
    NoWord();
  }

  // ----- Connecting channels -----

  datatype Connection =
    | NoFirstName
    | NoSecondName
    | Generic(first: string, second: string)
    | Typed(first: string, second: string, interfaceRef: string)

  // The fields are the first three words; a third makes the connection typed.
  function Route(words: seq<string>): Connection {
    if |words| == 0 then NoFirstName
    else if |words| == 1 then NoSecondName
    else if |words| == 2 then Generic(words[0], words[1])
    else Typed(words[0], words[1], words[2])
  }

  // Skip blanks from position j on and copy the word found there, if any.
  method NextField(arg: string, j: nat) returns (word: string, next: nat)
    requires j <= |arg|
    ensures j <= next <= |arg|
    ensures word == "" ==> Tokens(arg[j..]) == []
    ensures word != "" ==> Tokens(arg[j..]) == [word] + Tokens(arg[next..])
  {
    word, next := "", j;
    if j != |arg| {
      var i := FindFrom(arg, j, NotSpace);
      FindSlice(arg, j, NotSpace);
      next := FindFrom(arg, i, IsSpace);
      FindSlice(arg, i, IsSpace);
      if i != next {
        word := arg[i..next];
      }
    }
    NextWord(arg, j);
  }

  method ConnectChannels(arg: string) returns (r: Connection)
    ensures arg == "" || NotSpace(arg[0]) ==> r == Route(Tokens(arg))
    ensures arg != "" && IsSpace(arg[0]) ==> r == NoFirstName
    ensures r == NoSecondName ==> |Tokens(arg)| == 1
    ensures r.Generic? ==> Tokens(arg) == [r.first, r.second]
    ensures r.Typed? ==> |Tokens(arg)| >= 3 && Tokens(arg)[..3] == [r.first, r.second, r.interfaceRef]
  {
    hide Tokens;
    var name1 := "";
    var j := FindFrom(arg, 0, IsSpace);
    if 0 != j {
      name1 := arg[0..j];
    }
    assert arg[0..] == arg;
    FindSlice(arg, 0, IsSpace);
    if name1 == "" {
      NoWord();
      return NoFirstName;
    }
    FirstWord(arg);
    var name2, k := NextField(arg, j);
    if name2 == "" {
      return NoSecondName;
    }
    var interfaceRef, _ := NextField(arg, k);
    if interfaceRef != "" {
      r := Typed(name1, name2, interfaceRef);
    } else {
      r := Generic(name1, name2);
    }
  }

  lemma NoWord()
    ensures Tokens("") == []
  {
  }

  lemma FirstWord(arg: string)
    requires arg != "" && NotSpace(arg[0])
    ensures Tokens(arg) == [Before(arg, IsSpace)] + Tokens(After(arg, IsSpace))
    ensures Before(arg, IsSpace) != ""
  {
    FindHere(arg, NotSpace);
  }

  // The words from a position on: none when only blanks follow.
  lemma NextWord(arg: string, j: nat)
    requires j <= |arg|
    ensures var t := After(arg[j..], NotSpace);
            Tokens(arg[j..]) == if t == "" then [] else [Before(t, IsSpace)] + Tokens(After(t, IsSpace))
    ensures var t := After(arg[j..], NotSpace); t != "" ==> Before(t, IsSpace) != ""
  {
  }
}
