/**
 The maps behind dynamic rbus tables: from row paths to contexts, from alias paths to row paths and back. ConvertPath
 replaces aliases by instance numbers, one closing bracket after the other.
 */
module RowContexts {
  import opened Wrappers

  predicate Plain(s: string) {
    ']' !in s
  }

  // The number of characters up to and including the first closing bracket.
  function Bracket(s: string): (end: Option<nat>)
    ensures end.None? <==> Plain(s)
    ensures end.Some? ==> 0 < end.value <= |s| && s[end.value - 1] == ']' && Plain(s[..end.value - 1])
  {
    if s == [] then None
    else if s[0] == ']' then Some(1)
    else
      match Bracket(s[1..])
      case None => None
      case Some(n) =>
        assert s[..n] == [s[0]] + s[1..][..n - 1];
        Some(n + 1)
  }

  lemma {:induction false} BracketUnique(s: string, n: nat)
    requires 0 < n <= |s| && s[n - 1] == ']' && Plain(s[..n - 1])
    ensures Bracket(s) == Some(n)
  {
    if n > 1 {
      var before := s[..n - 1];
      assert before[0] == s[0] && s[1..][..n - 2] == before[1..];
      BracketUnique(s[1..], n - 1);
    }
  }

  // ---- one turn of the conversion loop ----

  datatype Step = Done(result: string) | More(path: string)

  // An alias that is not known and not at the end leaves the path with its rest repeated.
  function Convert(alias: map<string, string>, path: string): Step {
    match Bracket(path)
    case None => Done(path)
    case Some(n) =>
      var key, rest := path[..n], path[n..];
      if key in alias then
        if rest == [] then Done(alias[key]) else More(alias[key] + rest)
      else if rest == [] then Done(path)
      else More(path + rest)
  }

  function Turns(alias: map<string, string>, path: string, n: nat): Step {
    if n == 0 then More(path)
    else
      match Turns(alias, path, n - 1)
      case Done(r) => Done(r)
      case More(p) => Convert(alias, p)
  }

  // ---- substitution from left to right ----

  // The path with the aliases of rest replaced, given that done is what stands before it. None if an alias that is not
  // the last thing in the path is unknown.
  function Substitute(alias: map<string, string>, done: string, rest: string): (r: Option<string>)
    decreases |rest|
  {
    match Bracket(rest)
    case None => Some(done + rest)
    case Some(n) =>
      var key := done + rest[..n];
      if key in alias then Substitute(alias, alias[key], rest[n..])
      else if n == |rest| then Some(done + rest)
      else None
  }

  predicate PlainTargets(alias: map<string, string>) {
    forall k :: k in alias ==> Plain(alias[k])
  }

  lemma BracketBeyond(done: string, rest: string)
    requires Plain(done)
    ensures Bracket(done + rest) == match Bracket(rest)
                                    case None => None
                                    case Some(n) => Some(|done| + n)
  {
    match Bracket(rest)
    case None =>
    case Some(n) =>
      assert (done + rest)[..|done| + n - 1] == done + rest[..n - 1];
      BracketUnique(done + rest, |done| + n);
  }

  lemma PrefixAndRest(done: string, rest: string, n: nat)
    requires n <= |rest|
    ensures (done + rest)[..|done| + n] == done + rest[..n]
    ensures (done + rest)[|done| + n..] == rest[n..]
    ensures done + rest + rest[n..] == done + (rest + rest[n..])
  {
  }

  lemma ConvertShape(alias: map<string, string>, done: string, rest: string)
    requires Plain(done)
    ensures Convert(alias, done + rest) ==
            match Bracket(rest)
            case None => Done(done + rest)
            case Some(n) =>
              var key := done + rest[..n];
              if key in alias then
                if n == |rest| then Done(alias[key]) else More(alias[key] + rest[n..])
              else if n == |rest| then Done(done + rest)
              else More(done + (rest + rest[n..]))
  {
    BracketBeyond(done, rest);
    match Bracket(rest)
    case None =>
    case Some(n) =>
      var path, key := done + rest, done + rest[..n];
      PrefixAndRest(done, rest, n);
      assert Convert(alias, path) ==
             if key in alias then
               if rest[n..] == [] then Done(alias[key]) else More(alias[key] + rest[n..])
             else if rest[n..] == [] then Done(path) else More(path + rest[n..]);
      assert rest[n..] == [] <==> n == |rest|;
  }

  lemma SubstituteAtEnd(alias: map<string, string>, done: string)
    ensures Substitute(alias, done, "") == Some(done)
  {
    assert done + "" == done;
  }

  // A turn replaces the first alias: the path stands for the same substitution before and after it.
  lemma ConvertSubstitutes(alias: map<string, string>, done: string, rest: string)
    requires PlainTargets(alias) && Plain(done)
    ensures match Convert(alias, done + rest)
            case Done(r) => Substitute(alias, done, rest) == Some(r)
            case More(p) =>
              && Bracket(rest).Some?
              && var n := Bracket(rest).value;
                 if done + rest[..n] in alias then
                   && p == alias[done + rest[..n]] + rest[n..]
                   && Substitute(alias, done, rest) == Substitute(alias, alias[done + rest[..n]], rest[n..])
                 else
                   && p == done + (rest + rest[n..])
                   && n < |rest|
                   && Substitute(alias, done, rest) == None
  {
    ConvertShape(alias, done, rest);
    match Bracket(rest)
    case None =>
    case Some(n) =>
      if done + rest[..n] in alias && n == |rest| {
        SubstituteAtEnd(alias, alias[done + rest[..n]]);
        assert rest[n..] == "";
      }
  }

  // What a turn of the loop knows when the substitution exists.
  lemma LoopTurn(alias: map<string, string>, done: string, rest: string)
    requires PlainTargets(alias) && Plain(done) && Substitute(alias, done, rest).Some?
    ensures Bracket(done + rest).Some? <==> Bracket(rest).Some?
    ensures match Bracket(rest)
            case None => Substitute(alias, done, rest) == Some(done + rest)
            case Some(n) =>
              var path, end := done + rest, |done| + n;
              && Bracket(path) == Some(end)
              && path[..end] == done + rest[..n] && path[end..] == rest[n..]
              && (path[..end] in alias ==>
                    && Substitute(alias, done, rest) == Substitute(alias, alias[path[..end]], rest[n..])
                    && (end == |path| ==> Substitute(alias, done, rest) == Some(alias[path[..end]])))
              && (path[..end] !in alias && end == |path| ==> Substitute(alias, done, rest) == Some(path))
  {
    BracketBeyond(done, rest);
    match Bracket(rest)
    case None =>
    case Some(n) =>
      PrefixAndRest(done, rest, n);
      if done + rest[..n] in alias && n == |rest| {
        SubstituteAtEnd(alias, alias[done + rest[..n]]);
        assert rest[n..] == "";
      }
  }

  lemma UnknownIsLast(alias: map<string, string>, done: string, rest: string)
    requires Substitute(alias, done, rest).Some? && Bracket(rest).Some?
    requires done + rest[..Bracket(rest).value] !in alias
    ensures Bracket(rest).value == |rest|
  {
  }

  lemma {:induction false} TurnsOnward(alias: map<string, string>, path: string, n: nat)
    requires Convert(alias, path).More?
    ensures Turns(alias, path, n + 1) == Turns(alias, Convert(alias, path).path, n)
  {
    hide Convert;
    if n > 0 {
      TurnsOnward(alias, path, n - 1);
    }
  }

  // If the substitution exists, the loop ends with it, after at most one turn for every character and one more.
  lemma {:induction false} ConversionEnds(alias: map<string, string>, done: string, rest: string) returns (n: nat)
    requires PlainTargets(alias) && Plain(done) && Substitute(alias, done, rest).Some?
    ensures n <= |rest| + 1
    ensures Turns(alias, done + rest, n) == Done(Substitute(alias, done, rest).value)
    decreases |rest|
  {
    ConvertSubstitutes(alias, done, rest);
    if Convert(alias, done + rest).Done? {
      assert Turns(alias, done + rest, 0) == More(done + rest);
      n := 1;
    } else {
      var k := Bracket(rest).value;
      n := ConversionEnds(alias, alias[done + rest[..k]], rest[k..]);
      TurnsOnward(alias, done + rest, n);
      n := n + 1;
    }
  }

  // A path that begins with an unknown alias and goes on.
  predicate Stuck(alias: map<string, string>, path: string, k: nat) {
    0 < k < |path| && Bracket(path) == Some(k) && path[..k] !in alias
  }

  lemma StuckOnce(alias: map<string, string>, path: string, k: nat)
    requires Stuck(alias, path, k)
    ensures Convert(alias, path) == More(path + path[k..])
    ensures Stuck(alias, path + path[k..], k) && |path + path[k..]| > |path|
  {
    var q := path + path[k..];
    assert q[..k] == path[..k] && q[..k - 1] == path[..k - 1];
    BracketUnique(q, k);
  }

  // If it does not exist, the loop reaches the unknown alias and from then on makes the path longer with every turn.
  lemma {:induction false} StuckGrows(alias: map<string, string>, path: string, k: nat, n: nat)
    requires Stuck(alias, path, k)
    ensures Turns(alias, path, n).More?
    ensures var p := Turns(alias, path, n).path;
            |p| >= |path| + n && Stuck(alias, p, k)
  {
    if n > 0 {
      StuckGrows(alias, path, k, n - 1);
      StuckOnce(alias, Turns(alias, path, n - 1).path, k);
    }
  }

  lemma StuckAt(alias: map<string, string>, path: string, done: string, rest: string, k: nat)
    requires path == done + rest && Plain(done)
    requires Bracket(rest) == Some(k) && k < |rest| && done + rest[..k] !in alias
    ensures Stuck(alias, path, |done| + k)
  {
    BracketAt(path, done, rest, k);
    UnknownAt(alias, path, done, rest, k);
  }

  lemma BracketAt(path: string, done: string, rest: string, k: nat)
    requires path == done + rest && Plain(done) && Bracket(rest) == Some(k)
    ensures Bracket(path) == Some(|done| + k)
  {
    BracketBeyond(done, rest);
  }

  lemma UnknownAt(alias: map<string, string>, path: string, done: string, rest: string, k: nat)
    requires path == done + rest && k <= |rest| && done + rest[..k] !in alias
    ensures path[..|done| + k] !in alias
  {
    assert path[..|done| + k] == done + rest[..k];
  }

  lemma KnownTurn(alias: map<string, string>, done: string, rest: string, k: nat)
    requires PlainTargets(alias) && Plain(done) && Substitute(alias, done, rest).None?
    requires Bracket(rest) == Some(k) && done + rest[..k] in alias
    ensures Substitute(alias, alias[done + rest[..k]], rest[k..]).None?
    ensures Convert(alias, done + rest) == More(alias[done + rest[..k]] + rest[k..])
  {
    ConvertSubstitutes(alias, done, rest);
  }

  lemma {:induction false} ConversionDiverges(alias: map<string, string>, done: string, rest: string, n: nat)
    requires PlainTargets(alias) && Plain(done) && Substitute(alias, done, rest).None?
    ensures Turns(alias, done + rest, n).More?
    decreases |rest|
  {
    var k := Bracket(rest).value;
    if done + rest[..k] in alias {
      if n > 0 {
        KnownTurn(alias, done, rest, k);
        ConversionDiverges(alias, alias[done + rest[..k]], rest[k..], n - 1);
        TurnsOnward(alias, done + rest, n - 1);
      }
    } else {
      StuckAt(alias, done + rest, done, rest, k);
      StuckGrows(alias, done + rest, |done| + k, n);
    }
  }

  // The loop ends exactly when the substitution exists, and then returns it.
  lemma ConversionIsSubstitution(alias: map<string, string>, path: string)
    requires PlainTargets(alias)
    ensures Substitute(alias, "", path).Some? <==> exists n :: Turns(alias, path, n).Done?
    ensures forall n :: Turns(alias, path, n).Done? ==> Substitute(alias, "", path) == Some(Turns(alias, path, n).result)
  {
    assert "" + path == path;
    if Substitute(alias, "", path).Some? {
      var m := ConversionEnds(alias, "", path);
      forall n | Turns(alias, path, n).Done?
        ensures Substitute(alias, "", path) == Some(Turns(alias, path, n).result)
      {
        DoneOnce(alias, path, n, m);
      }
    } else {
      forall n
        ensures Turns(alias, path, n).More?
      {
        ConversionDiverges(alias, "", path, n);
      }
    }
  }

  lemma {:induction false} DoneOnce(alias: map<string, string>, path: string, m: nat, n: nat)
    requires Turns(alias, path, m).Done? && Turns(alias, path, n).Done?
    ensures Turns(alias, path, m) == Turns(alias, path, n)
    decreases m + n
  {
    if m < n {
      DoneStays(alias, path, m, n);
    } else {
      DoneStays(alias, path, n, m);
    }
  }

  lemma {:induction false} DoneStays(alias: map<string, string>, path: string, m: nat, n: nat)
    requires m <= n && Turns(alias, path, m).Done?
    ensures Turns(alias, path, n) == Turns(alias, path, m)
    decreases n
  {
    hide Convert, Bracket;
    if m < n {
      DoneStays(alias, path, m, n - 1);
    }
  }

  // Every alias of the path is known.
  predicate Resolves(alias: map<string, string>, done: string, rest: string)
    decreases |rest|
  {
    match Bracket(rest)
    case None => true
    case Some(n) => done + rest[..n] in alias && Resolves(alias, alias[done + rest[..n]], rest[n..])
  }

  // A path whose aliases are all known converts to one without aliases, which converts to itself.
  lemma {:induction false} ResolvedIsPlain(alias: map<string, string>, done: string, rest: string)
    requires PlainTargets(alias) && Plain(done) && Resolves(alias, done, rest)
    ensures var r := Substitute(alias, done, rest);
            r.Some? && Plain(r.value) && Substitute(alias, "", r.value) == r
    decreases |rest|
  {
    match Bracket(rest)
    case None =>
      assert "" + (done + rest) == done + rest;
    case Some(n) =>
      ResolvedIsPlain(alias, alias[done + rest[..n]], rest[n..]);
  }

  // ---- the maps ----

  // Contexts are handles; a context that is not there reads as NULL.
  const NULL: nat := 0

  datatype Maps = Maps(row: map<string, nat>, alias: map<string, string>, inst: map<string, string>)

  function Decimal(n: nat): (s: string)
    ensures Plain(s)
  {
    var digit := ['0' + (n % 10) as char];
    if n < 10 then digit else Decimal(n / 10) + digit
  }

  function RowPath(table: string, number: nat): string {
    table + Decimal(number)
  }

  function AliasPath(table: string, name: string): string {
    table + "[" + name + "]"
  }

  predicate Inverse(m: Maps) {
    && (forall a :: a in m.alias ==> m.alias[a] in m.inst && m.inst[m.alias[a]] == a)
    && (forall p :: p in m.inst ==> m.inst[p] in m.alias && m.alias[m.inst[p]] == p)
  }

  function WithRow(m: Maps, table: string, number: nat, name: Option<string>, context: nat): Maps {
    var path := RowPath(table, number);
    var row := m.row[path := context];
    match name
    case None => m.(row := row)
    case Some(n) => Maps(row, m.alias[AliasPath(table, n) := path], m.inst[path := AliasPath(table, n)])
  }

  // Removes the row a converted name stands for.
  function WithoutRow(m: Maps, path: string): Maps {
    var row := m.row - {path};
    if path in m.inst then Maps(row, m.alias - {m.inst[path]}, m.inst - {path}) else m.(row := row)
  }

  // ---- row numbers and lookups ----

  predicate Digits(s: string) {
    forall i :: 0 <= i < |s| ==> '0' <= s[i] <= '9'
  }

  // The number that a string of digits spells, read from left to right.
  function Spelled(s: string): nat
    requires Digits(s)
  {
    if s == "" then 0 else 10 * Spelled(s[..|s| - 1]) + (s[|s| - 1] - '0') as nat
  }

  // A numeral as it is written: digits, without a leading zero.
  predicate Numeral(s: string) {
    s != "" && Digits(s) && (s[0] == '0' ==> |s| == 1)
  }

  lemma {:induction false} DecimalSpells(n: nat)
    ensures Numeral(Decimal(n)) && Spelled(Decimal(n)) == n
  {
    if n >= 10 {
      DecimalSpells(n / 10);
      var front := Decimal(n / 10);
      assert Decimal(n)[..|front|] == front;
    } else {
      assert Spelled(Decimal(n)[..0]) == 0;
    }
  }

  // The numeral of a number is the only one that spells it.
  lemma {:induction false} OnlyNumeral(s: string)
    requires Numeral(s)
    ensures Decimal(Spelled(s)) == s
    decreases |s|
  {
    var front := s[..|s| - 1];
    if front == "" {
      assert Spelled(front) == 0;
    } else {
      OnlyNumeral(front);
      DecimalSpells(Spelled(front));
      assert Spelled(s) / 10 == Spelled(front);
    }
  }

  // Rows of one table with different numbers have different paths.
  lemma RowPathsDiffer(table: string, a: nat, b: nat)
    requires RowPath(table, a) == RowPath(table, b)
    ensures a == b
  {
    DecimalSpells(a);
    DecimalSpells(b);
    assert RowPath(table, a)[|table|..] == Decimal(a) && RowPath(table, b)[|table|..] == Decimal(b);
  }

  // A row is found under its table followed by the numeral of its number, and its alias is the table followed by the
  // name in brackets; nothing else is changed.
  lemma RowIsFound(m: Maps, table: string, number: string, name: string, context: nat)
    requires Numeral(number)
    ensures var n := Spelled(number);
            && WithRow(m, table, n, None, context) == m.(row := m.row[table + number := context])
            && WithRow(m, table, n, Some(name), context) ==
               Maps(m.row[table + number := context],
                    m.alias[table + "[" + name + "]" := table + number],
                    m.inst[table + number := table + "[" + name + "]"])
  {
    OnlyNumeral(number);
  }

  // A removed row is gone, with its alias; every other row and alias stays.
  lemma RowIsGone(m: Maps, path: string, other: string)
    ensures var after := WithoutRow(m, path);
            && (other in after.row <==> other in m.row && other != path)
            && (other in after.row ==> after.row[other] == m.row[other])
            && (other in after.inst <==> other in m.inst && other != path)
            && (other in after.inst ==> after.inst[other] == m.inst[other])
            && (other in after.alias <==> other in m.alias && !(path in m.inst && m.inst[path] == other))
            && (other in after.alias ==> after.alias[other] == m.alias[other])
  {
  }

  // Setting a row keeps the two alias maps inverse exactly if neither its path nor its alias is paired with another.
  lemma SetKeepsInverse(m: Maps, table: string, number: nat, name: string, context: nat)
    requires Inverse(m)
    ensures var path, aliasPath := RowPath(table, number), AliasPath(table, name);
            Inverse(WithRow(m, table, number, Some(name), context)) <==>
              && (path in m.inst ==> m.inst[path] == aliasPath)
              && (aliasPath in m.alias ==> m.alias[aliasPath] == path)
  {
    var path, aliasPath := RowPath(table, number), AliasPath(table, name);
    var after := WithRow(m, table, number, Some(name), context);
    if path in m.inst && m.inst[path] != aliasPath {
      assert m.inst[path] in after.alias && after.alias[m.inst[path]] == path && after.inst[path] == aliasPath;
    }
    if aliasPath in m.alias && m.alias[aliasPath] != path {
      assert m.alias[aliasPath] in after.inst && after.inst[m.alias[aliasPath]] == aliasPath;
    }
  }

  lemma RemoveKeepsInverse(m: Maps, path: string)
    requires Inverse(m)
    ensures Inverse(WithoutRow(m, path))
    ensures path !in WithoutRow(m, path).row && path !in WithoutRow(m, path).inst
    ensures path !in WithoutRow(m, path).alias.Values
  {
  }

  lemma SetKeepsTargets(m: Maps, table: string, number: nat, name: Option<string>, context: nat)
    requires PlainTargets(m.alias) && Plain(table)
    ensures PlainTargets(WithRow(m, table, number, name, context).alias)
  {
  }

  lemma PlainConverts(alias: map<string, string>, path: string)
    requires Plain(path)
    ensures Substitute(alias, "", path) == Some(path)
  {
    assert "" + path == path;
  }

  // An unknown alias can only be left at the very end.
  lemma {:induction false} UnknownLast(alias: map<string, string>, done: string, rest: string)
    requires PlainTargets(alias) && Plain(done)
    requires Substitute(alias, done, rest).Some? && !Resolves(alias, done, rest)
    ensures var r := Substitute(alias, done, rest).value;
            r !in alias && Bracket(r) == Some(|r|)
    decreases |rest|
  {
    var n := Bracket(rest).value;
    if done + rest[..n] in alias {
      UnknownLast(alias, alias[done + rest[..n]], rest[n..]);
    } else {
      assert rest[..n] == rest;
      BracketBeyond(done, rest);
    }
  }

  lemma UnknownStops(alias: map<string, string>, path: string, more: string)
    requires path !in alias && Bracket(path) == Some(|path|) && more != ""
    ensures Substitute(alias, "", path + more).None?
  {
    var n := |path|;
    assert (path + more)[..n] == path && (path + more)[..n - 1] == path[..n - 1];
    BracketUnique(path + more, n);
    assert "" + path == path;
  }

  // A table's path with a number behind it converts exactly if all aliases of the table's path are known.
  lemma NumberedConverts(alias: map<string, string>, table: string, number: nat)
    requires PlainTargets(alias) && Substitute(alias, "", table).Some?
    ensures Substitute(alias, "", RowPath(Substitute(alias, "", table).value, number)).Some? <==>
              Resolves(alias, "", table)
  {
    var converted := Substitute(alias, "", table).value;
    if Resolves(alias, "", table) {
      ResolvedIsPlain(alias, "", table);
      PlainConverts(alias, RowPath(converted, number));
    } else {
      UnknownLast(alias, "", table);
      UnknownStops(alias, converted, Decimal(number));
    }
  }

  // The alias of a row converts to the row's path.
  lemma AliasConverts(alias: map<string, string>, table: string, name: string)
    requires Plain(table) && Plain(name) && AliasPath(table, name) in alias
    ensures Substitute(alias, "", AliasPath(table, name)) == Some(alias[AliasPath(table, name)])
  {
    var path := AliasPath(table, name);
    AliasBracket(table, name);
    assert "" + path[..|path|] == path && path[|path|..] == "";
    SubstituteAtEnd(alias, alias[path]);
  }

  lemma AliasBracket(table: string, name: string)
    requires Plain(table) && Plain(name)
    ensures Bracket(AliasPath(table, name)) == Some(|AliasPath(table, name)|)
  {
    var path := AliasPath(table, name);
    assert path[..|path| - 1] == table + "[" + name;
    BracketUnique(path, |path|);
  }

  // Removing a row that was set fresh, by its path or by its alias, gives back all three maps.
  lemma SetThenRemove(m: Maps, table: string, number: nat, name: Option<string>, context: nat)
    requires Plain(table) && (name.Some? ==> Plain(name.value))
    requires RowPath(table, number) !in m.row && RowPath(table, number) !in m.inst
    requires name.Some? ==> AliasPath(table, name.value) !in m.alias
    ensures var after, path := WithRow(m, table, number, name, context), RowPath(table, number);
            && Substitute(after.alias, "", path) == Some(path)
            && (name.Some? ==> Substitute(after.alias, "", AliasPath(table, name.value)) == Some(path))
            && WithoutRow(after, path) == m
  {
    var after, path := WithRow(m, table, number, name, context), RowPath(table, number);
    PlainConverts(after.alias, path);
    PutThenTake(m.row, path, context);
    if name.Some? {
      var aliasPath := AliasPath(table, name.value);
      AliasConverts(after.alias, table, name.value);
      PutThenTake(m.alias, aliasPath, path);
      PutThenTake(m.inst, path, aliasPath);
    }
  }

  lemma PutThenTake<V>(m: map<string, V>, key: string, value: V)
    requires key !in m
    ensures m[key := value] - {key} == m
  {
  }

  datatype Change =
    | Set(table: string, number: nat, name: Option<string>, context: nat)
    | Remove(path: string)

  function Changed(m: Maps, c: Change): Maps {
    match c
    case Set(table, number, name, context) => WithRow(m, table, number, name, context)
    case Remove(path) => WithoutRow(m, path)
  }

  // A change that pairs no row and no alias with a second partner.
  predicate Harmless(m: Maps, c: Change) {
    c.Set? ==>
      && Plain(c.table)
      && (c.name.Some? ==>
            var path, aliasPath := RowPath(c.table, c.number), AliasPath(c.table, c.name.value);
            && (path in m.inst ==> m.inst[path] == aliasPath)
            && (aliasPath in m.alias ==> m.alias[aliasPath] == path))
  }

  predicate AllHarmless(m: Maps, changes: seq<Change>)
    decreases |changes|
  {
    changes != [] ==> Harmless(m, changes[0]) && AllHarmless(Changed(m, changes[0]), changes[1..])
  }

  function Replay(m: Maps, changes: seq<Change>): Maps
    decreases |changes|
  {
    if changes == [] then m else Replay(Changed(m, changes[0]), changes[1..])
  }

  // Over any such changes the alias maps stay inverse, and aliases lead to paths without aliases.
  lemma {:induction false} ChangesKeepInverse(m: Maps, changes: seq<Change>)
    requires Inverse(m) && PlainTargets(m.alias) && AllHarmless(m, changes)
    ensures Inverse(Replay(m, changes)) && PlainTargets(Replay(m, changes).alias)
    decreases |changes|
  {
    if changes != [] {
      match changes[0]
      case Set(table, number, name, context) =>
        SetKeepsTargets(m, table, number, name, context);
        if name.Some? {
          SetKeepsInverse(m, table, number, name.value, context);
        }
        ChangesKeepInverse(WithRow(m, table, number, name, context), changes[1..]);
      case Remove(path) =>
        RemoveKeepsInverse(m, path);
        ChangesKeepInverse(WithoutRow(m, path), changes[1..]);
    }
  }

  // ---- parents ----

  // A proper ancestor of a path that has a context.
  predicate HasContext(row: map<string, nat>, path: string, i: nat) {
    0 < i < |path| && path[i] == '.' && path[..i] in row && row[path[..i]] != NULL
  }

  class ContextMaps {
    var row: map<string, nat>
    var alias: map<string, string>
    var inst: map<string, string>
    // the two buffers of ConvertPath
    var buff1: string
    var buff2: string

    ghost function View(): Maps
      reads this
    {
      Maps(row, alias, inst)
    }

    constructor ()
      ensures View() == Maps(map[], map[], map[]) && Inverse(View()) && PlainTargets(alias)
    {
      row, alias, inst := map[], map[], map[];
      buff1, buff2 := "", "";
    }

    // Puts the next path into the buffer that is not being read.
    method Fill(first: bool, s: string)
      modifies this`buff1, this`buff2
      ensures if first then buff1 == s && buff2 == old(buff2) else buff2 == s && buff1 == old(buff1)
    {
      if first {
        buff1 := s;
      } else {
        buff2 := s;
      }
    }

    method ConvertPath(path: string) returns (r: string)
      requires PlainTargets(alias) && Substitute(alias, "", path).Some?
      modifies this`buff1, this`buff2
      ensures Substitute(alias, "", path) == Some(r)
    {
      hide Bracket, Substitute;
      Fill(true, "");
      Fill(false, "");
      var first := true;
      var p1 := path;
      ghost var done, rest := "", path;
      assert p1 == done + rest;
      while Bracket(p1).Some?
        invariant p1 == done + rest && Plain(done)
        invariant Substitute(alias, done, rest) == Substitute(alias, "", path)
        decreases |rest|
      {
        LoopTurn(alias, done, rest);
        var p2 := Bracket(p1).value;
        Fill(first, p1[..p2]);
        var key := if first then buff1 else buff2;
        if key in alias {
          if p2 == |p1| {
            return alias[key];
          }
          Fill(first, alias[key] + p1[p2..]);
        } else {
          if p2 == |p1| {
            return p1;
          }
          Fill(first, p1 + p1[p2..]);
          // the source goes on like this with an unknown alias; it does not happen where the substitution exists
          UnknownIsLast(alias, done, rest);
          assert false;
        }
        ghost var n := Bracket(rest).value;
        done, rest := alias[done + rest[..n]], rest[n..];
        p1 := if first then buff1 else buff2;
        first := !first;
      }
      LoopTurn(alias, done, rest);
      r := p1;
    }

    method SetRowContext(table: string, number: nat, name: Option<string>, context: nat)
      modifies this`row, this`alias, this`inst
      ensures View() == WithRow(old(View()), table, number, name, context)
    {
      var path := RowPath(table, number);
      row := row[path := context];
      if name.Some? {
        var aliasPath := AliasPath(table, name.value);
        alias := alias[aliasPath := path];
        inst := inst[path := aliasPath];
      }
    }

    method RemoveRowContextByName(name: string)
      requires PlainTargets(alias) && Substitute(alias, "", name).Some?
      modifies this
      ensures View() == WithoutRow(old(View()), Substitute(old(alias), "", name).value)
    {
      var path := ConvertPath(name);
      row := row - {path};
      if path in inst {
        alias := alias - {inst[path]};
        inst := inst - {path};
      }
    }

    method RemoveRowContextByInstNum(table: string, number: nat)
      requires PlainTargets(alias) && Resolves(alias, "", table)
      modifies this
      ensures Substitute(old(alias), "", table).Some?
      ensures View() == WithoutRow(old(View()), RowPath(Substitute(old(alias), "", table).value, number))
    {
      ResolvedIsPlain(alias, "", table);
      var converted := ConvertPath(table);
      PlainConverts(alias, RowPath(converted, number));
      RemoveRowContextByName(RowPath(converted, number));
    }

    method GetRowContext(path: string) returns (context: nat)
      ensures context == if path in row then row[path] else NULL
    {
      if path in row {
        context := row[path];
      } else {
        context := NULL;
      }
    }

    // The context of the nearest ancestor that has one.
    method GetParentContext(path: string) returns (context: nat)
      requires path != ""
      ensures context == NULL <==> forall i: nat :: 0 < i < |path| ==> !HasContext(row, path, i)
      ensures context != NULL ==>
                exists i: nat :: && HasContext(row, path, i)
                                 && context == row[path[..i]]
                                 && forall j: nat :: i < j < |path| ==> !HasContext(row, path, j)
    {
      var p := |path| - 1;
      while true
        invariant 0 <= p < |path|
        invariant forall j: nat :: p < j < |path| ==> !HasContext(row, path, j)
        decreases p
      {
        while p > 0 && path[p] != '.'
          invariant 0 <= p < |path|
          invariant forall j: nat :: p < j < |path| ==> !HasContext(row, path, j)
        {
          p := p - 1;
        }
        if p == 0 {
          return NULL;
        }
        context := GetRowContext(path[..p]);
        if context != NULL {
          assert HasContext(row, path, p);
          return;
        }
        p := p - 1;
      }
    }
  }
}
