/**
 Policy routing rules of daemon/internal/ops/wireguard.go and amneziawg.go: the pair that a
 bring-up adds for each family, and the bounded cleanup that takes leaked pairs away. A list of
 rules is in priority order; `ip rule add` puts its rule before the others.
 */
module PolicyRules {
  import opened Common
  import opened Text

  const MAIN: nat := 254
  const WG_TABLE_MIN: nat := 51820
  const WG_TABLE_MAX: nat := 51899
  const WG_RULE_LOOP_MAX: nat := 32

  datatype Rule = Rule(table: nat, fwmark: bool, suppress0: bool)

  /** The pair, as AmneziaWgUp and wg-quick install it. */
  const FWMARK_RULE := Rule(WG_TABLE_MIN, true, false)
  const SUPPRESS_RULE := Rule(MAIN, false, true)

  /** What one delete loop is after. */
  datatype Kind = OfTable(table: nat) | SuppressMain

  predicate Is(r: Rule, kind: Kind) {
    match kind
    case OfTable(t) => r.table == t
    case SuppressMain => r.table == MAIN && r.suppress0
  }

  /** The loop's guard greps the listing, so a longer table number that starts alike passes too. */
  predicate Greps(r: Rule, kind: Kind) {
    match kind
    case OfTable(t) => Dec(t) <= Dec(r.table)
    case SuppressMain => r.suppress0
  }

  predicate Mentioned(rules: seq<Rule>, kind: Kind) {
    exists i :: 0 <= i < |rules| && Greps(rules[i], kind)
  }

  predicate Present(rules: seq<Rule>, kind: Kind) {
    exists i :: 0 <= i < |rules| && Is(rules[i], kind)
  }

  /** `ip rule delete`: the first rule that fits. */
  function RemoveFirst(rules: seq<Rule>, kind: Kind): (r: seq<Rule>)
    ensures |r| == |rules| - if Present(rules, kind) then 1 else 0
    decreases |rules|
  {
    if rules == [] then []
    else if Is(rules[0], kind) then rules[1..]
    else
      assert Present(rules, kind) <==> Present(rules[1..], kind) by {
        assert forall i :: 0 <= i < |rules[1..]| ==> rules[1..][i] == rules[i + 1];
        assert forall i :: 0 < i < |rules| ==> rules[i] == rules[1..][i - 1];
      }
      [rules[0]] + RemoveFirst(rules[1..], kind)
  }

  datatype Drained = Drained(rules: seq<Rule>, calls: nat)

  /** The bounded delete loop; `luck(k)` is whether the k-th command can take effect. */
  function Drain(rules: seq<Rule>, kind: Kind, n: nat, luck: nat -> bool, k: nat): Drained
    decreases n
  {
    if n == 0 || !Mentioned(rules, kind) then Drained(rules, k)
    else if luck(k) && Present(rules, kind) then Drain(RemoveFirst(rules, kind), kind, n - 1, luck, k + 1)
    else Drained(rules, k + 1)
  }

  predicate InRange(table: nat) {
    WG_TABLE_MIN <= table <= WG_TABLE_MAX
  }

  /** Some fwmark rule leads to the table. */
  predicate FwmarkTable(rules: seq<Rule>, table: nat) {
    InRange(table) && exists i :: 0 <= i < |rules| && rules[i].fwmark && rules[i].table == table
  }

  function Insert(t: nat, tables: seq<nat>): seq<nat>
    decreases |tables|
  {
    if tables == [] || t < tables[0] then [t] + tables
    else if t == tables[0] then tables
    else [tables[0]] + Insert(t, tables[1..])
  }

  /** wgRuleTables: the tables in range that fwmark rules lead to, each once, in order. */
  function Collect(rules: seq<Rule>, tables: seq<nat>): seq<nat>
    decreases |rules|
  {
    if rules == [] then tables
    else
      var r := rules[0];
      Collect(rules[1..], if r.fwmark && InRange(r.table) then Insert(r.table, tables) else tables)
  }

  function DrainTables(rules: seq<Rule>, tables: seq<nat>, luck: nat -> bool, k: nat): Drained
    decreases |tables|
  {
    if tables == [] then Drained(rules, k)
    else
      var d := Drain(rules, OfTable(tables[0]), WG_RULE_LOOP_MAX, luck, k);
      DrainTables(d.rules, tables[1..], luck, d.calls)
  }

  /** One family: the tables, then the suppress rules. */
  function CleanFamily(rules: seq<Rule>, luck: nat -> bool, k: nat): Drained {
    var d := DrainTables(rules, Collect(rules, []), luck, k);
    Drain(d.rules, SuppressMain, WG_RULE_LOOP_MAX, luck, d.calls)
  }

  // ---- bring-up --------------------------------------------------------------------

  datatype Family = V4 | V6

  datatype Rules = Rules(v4: seq<Rule>, v6: seq<Rule>)
  {
    function Of(f: Family): seq<Rule> {
      if f.V4? then v4 else v6
    }
  }

  /** The commands after the link has appeared; only AddRule concerns the rules. */
  datatype Cmd = AddAddress | SetUp | Resolvconf | AddRule(family: Family, rule: Rule) | AddRoute(family: Family) | ValidMark

  datatype Step = Step(cmd: Cmd, quiet: bool)

  function Effect(r: Rules, c: Cmd): Rules {
    match c
    case AddRule(V4, rule) => r.(v4 := [rule] + r.v4)
    case AddRule(V6, rule) => r.(v6 := [rule] + r.v6)
    case _ => r
  }

  datatype Ran = Ran(rules: Rules, ok: bool, calls: nat)

  /** Steps in order until one that is not quiet fails. */
  function Exec(r: Rules, steps: seq<Step>, luck: nat -> bool, k: nat): Ran
    decreases |steps|
  {
    if steps == [] then Ran(r, true, k)
    else if luck(k) then Exec(Effect(r, steps[0].cmd), steps[1..], luck, k + 1)
    else if steps[0].quiet then Exec(r, steps[1..], luck, k + 1)
    else Ran(r, false, k + 1)
  }

  datatype Directives = Directives(addresses: nat, dns: bool, hasV4Default: bool, hasV6Default: bool)

  function DefaultSteps(f: Family, quiet: bool): seq<Step> {
    [Step(AddRule(f, FWMARK_RULE), quiet), Step(AddRule(f, SUPPRESS_RULE), quiet), Step(AddRoute(f), quiet)]
  }

  function Repeat(c: Cmd, n: nat): seq<Step> {
    seq(n, _ => Step(c, false))
  }

  /** The steps up to the rules, and the rest. */
  function LinkSteps(d: Directives): seq<Step> {
    Repeat(AddAddress, d.addresses) + [Step(SetUp, false)] + (if d.dns then [Step(Resolvconf, false)] else [])
  }

  function FourSteps(d: Directives): seq<Step> {
    if d.hasV4Default then DefaultSteps(V4, false) + [Step(ValidMark, false)] else []
  }

  function SixSteps(d: Directives): seq<Step> {
    if d.hasV6Default then DefaultSteps(V6, true) else []
  }

  function RouteSteps(d: Directives): seq<Step> {
    FourSteps(d) + SixSteps(d)
  }

  function UpSteps(d: Directives): seq<Step> {
    LinkSteps(d) + RouteSteps(d)
  }

  /** cleanupWgRules: nothing while a tunnel that could own the rules is left. */
  function Clean(r: Rules, guarded: bool, luck: nat -> bool, k: nat): Rules {
    if guarded then r
    else
      var d4 := CleanFamily(r.v4, luck, k);
      Rules(d4.rules, CleanFamily(r.v6, luck, d4.calls).rules)
  }

  datatype UpEnd = NoLink | Failed | StateNotWritten | Up

  class Kernel {
    var rules4: seq<Rule>
    var rules6: seq<Rule>
    var link: bool           // sntl0
    var otherTunnel: bool    // a link of type wireguard
    var calls: nat
    const luck: nat -> bool

    function View(): Rules
      reads this
    {
      Rules(rules4, rules6)
    }

    constructor (r: Rules, link: bool, otherTunnel: bool, luck: nat -> bool)
      ensures View() == r && this.link == link && this.otherTunnel == otherTunnel && this.luck == luck && calls == 0
    {
      rules4, rules6, this.link, this.otherTunnel, this.luck, calls := r.v4, r.v6, link, otherTunnel, luck, 0;
    }

    method DrainLoop(rules: seq<Rule>, kind: Kind) returns (left: seq<Rule>)
      modifies this`calls
      ensures Drained(left, calls) == Drain(rules, kind, WG_RULE_LOOP_MAX, luck, old(calls))
    {
      left := rules;
      var n := 0;
      while n < WG_RULE_LOOP_MAX && Mentioned(left, kind)
        invariant n <= WG_RULE_LOOP_MAX
        invariant Drain(rules, kind, WG_RULE_LOOP_MAX, luck, old(calls))
               == Drain(left, kind, WG_RULE_LOOP_MAX - n, luck, calls)
      {
        var deleted := luck(calls) && Present(left, kind);
        calls := calls + 1;
        if !deleted {
          return;
        }
        left := RemoveFirst(left, kind);
        n := n + 1;
      }
    }

    method WgRuleTables(rules: seq<Rule>) returns (tables: seq<nat>)
      ensures tables == Collect(rules, [])
    {
      tables := [];
      for i := 0 to |rules|
        invariant Collect(rules, []) == Collect(rules[i..], tables)
      {
        assert rules[i..][1..] == rules[i + 1..];
        if rules[i].fwmark && InRange(rules[i].table) {
          tables := Insert(rules[i].table, tables);
        }
      }
    }

    method CleanOneFamily(rules: seq<Rule>) returns (left: seq<Rule>)
      modifies this`calls
      ensures Drained(left, calls) == CleanFamily(rules, luck, old(calls))
    {
      var tables := WgRuleTables(rules);
      left := rules;
      for i := 0 to |tables|
        invariant DrainTables(rules, tables, luck, old(calls)) == DrainTables(left, tables[i..], luck, calls)
      {
        assert tables[i..][1..] == tables[i + 1..];
        left := DrainLoop(left, OfTable(tables[i]));
      }
      left := DrainLoop(left, SuppressMain);
    }

    method CleanupWgRules()
      modifies this`calls, this`rules4, this`rules6
      ensures View() == Clean(old(View()), otherTunnel || link, luck, old(calls))
    {
      if otherTunnel || link {
        return;
      }
      rules4 := CleanOneFamily(rules4);
      rules6 := CleanOneFamily(rules6);
    }

    method RunSteps(steps: seq<Step>) returns (ok: bool)
      modifies this`calls, this`rules4, this`rules6
      ensures Ran(View(), ok, calls) == Exec(old(View()), steps, luck, old(calls))
    {
      ok := true;
      for i := 0 to |steps|
        invariant Exec(old(View()), steps, luck, old(calls)) == Exec(View(), steps[i..], luck, calls)
      {
        assert steps[i..][1..] == steps[i + 1..];
        ok := luck(calls);
        calls := calls + 1;
        if ok {
          var r := Effect(View(), steps[i].cmd);
          rules4, rules6 := r.v4, r.v6;
        } else if !steps[i].quiet {
          return;
        }
        ok := true;
      }
    }

    /** From the clean slate on. `appears`: the device created its link in time. */
    method AmneziaWgUp(d: Directives, appears: bool, stateWrites: bool, unlinks: bool) returns (end: UpEnd)
      modifies this
      ensures otherTunnel == old(otherTunnel)
      ensures end.NoLink? <==> !appears
      ensures link <==> end.Up? || end.StateNotWritten? || (end.Failed? && !unlinks)
      ensures var r := Exec(old(View()), UpSteps(d), luck, old(calls));
        && (appears ==> (end.Failed? <==> !r.ok))
        && (appears && r.ok ==> (end.Up? <==> stateWrites))
        && View() == match end
                     case NoLink => old(View())
                     case Failed => Clean(r.rules, otherTunnel || link, luck, r.calls)
                     case _ => r.rules
    {
      link := appears;
      if !appears {
        return NoLink;
      }
      var ok := RunSteps(UpSteps(d));
      if !ok {
        link := !unlinks;
        CleanupWgRules();
        return Failed;
      }
      end := if stateWrites then Up else StateNotWritten;
    }

    /** `unlinks`: sntl0 is gone after the delete. */
    method AmneziaWgDown(unlinks: bool)
      modifies this
      ensures otherTunnel == old(otherTunnel) && link == (old(link) && !unlinks)
      ensures View() == Clean(old(View()), otherTunnel || link, luck, old(calls))
    {
      link := link && !unlinks;
      CleanupWgRules();
    }
  }

  // ---- one delete loop -------------------------------------------------------------

  function Count(rules: seq<Rule>, kind: Kind): nat
    decreases |rules|
  {
    if rules == [] then 0 else (if Is(rules[0], kind) then 1 else 0) + Count(rules[1..], kind)
  }

  /** Cleanup is after these and no others. */
  predicate Doomed(r: Rule, tables: seq<nat>) {
    Is(r, SuppressMain) || r.table in tables
  }

  function Spared(rules: seq<Rule>, tables: seq<nat>): seq<Rule>
    decreases |rules|
  {
    if rules == [] then [] else (if Doomed(rules[0], tables) then [] else [rules[0]]) + Spared(rules[1..], tables)
  }

  /** The kinds that the loops of one family go through. */
  predicate Sought(kind: Kind, tables: seq<nat>) {
    kind.SuppressMain? || kind.table in tables
  }

  lemma {:induction false} PresentIffCounted(rules: seq<Rule>, kind: Kind)
    ensures Present(rules, kind) <==> Count(rules, kind) > 0
    decreases |rules|
  {
    if rules != [] {
      PresentIffCounted(rules[1..], kind);
      if Present(rules, kind) && !Is(rules[0], kind) {
        var i :| 0 <= i < |rules| && Is(rules[i], kind);
        assert Is(rules[1..][i - 1], kind);
      }
      if Present(rules[1..], kind) {
        var i :| 0 <= i < |rules[1..]| && Is(rules[1..][i], kind);
        assert Is(rules[i + 1], kind);
      }
    }
  }

  /** Tables of ours are not the main table, so no rule is of two kinds. */
  predicate AllInRange(tables: seq<nat>) {
    forall i :: 0 <= i < |tables| ==> InRange(tables[i])
  }

  lemma {:induction false} RemoveFirstEffect(rules: seq<Rule>, kind: Kind, other: Kind, tables: seq<nat>)
    requires AllInRange(tables) && Sought(kind, tables) && Sought(other, tables)
    ensures var r := RemoveFirst(rules, kind);
      && Spared(r, tables) == Spared(rules, tables)
      && Count(r, other) == Count(rules, other) - if other == kind && Count(rules, kind) > 0 then 1 else 0
    decreases |rules|
  {
    if rules != [] && !Is(rules[0], kind) {
      RemoveFirstEffect(rules[1..], kind, other, tables);
      assert ([rules[0]] + RemoveFirst(rules[1..], kind))[1..] == RemoveFirst(rules[1..], kind);
    }
  }

  ghost predicate Lucky(luck: nat -> bool, k: nat) {
    forall j :: j >= k ==> luck(j)
  }

  function Minus(a: nat, b: nat): nat {
    if a <= b then 0 else a - b
  }

  lemma GreppedIfPresent(rules: seq<Rule>, kind: Kind)
    requires Present(rules, kind)
    ensures Mentioned(rules, kind)
  {
    var i :| 0 <= i < |rules| && Is(rules[i], kind);
    assert Greps(rules[i], kind);
  }

  /** What a loop over one kind may do to the rules: `gone` of its kind go, and nothing else. */
  predicate Drains(before: seq<Rule>, after: seq<Rule>, kind: Kind, gone: nat, other: Kind, tables: seq<nat>) {
    && Spared(after, tables) == Spared(before, tables)
    && (other != kind ==> Count(after, other) == Count(before, other))
    && Count(after, kind) + gone == Count(before, kind)
  }

  lemma DrainsTwice(a: seq<Rule>, b: seq<Rule>, c: seq<Rule>, kind: Kind, m: nat, n: nat, other: Kind, tables: seq<nat>)
    requires Drains(a, b, kind, m, other, tables) && Drains(b, c, kind, n, other, tables)
    ensures Drains(a, c, kind, m + n, other, tables)
  {
  }

  lemma OneDrained(rules: seq<Rule>, kind: Kind, other: Kind, tables: seq<nat>)
    requires AllInRange(tables) && Sought(kind, tables) && Sought(other, tables) && Present(rules, kind)
    ensures Drains(rules, RemoveFirst(rules, kind), kind, 1, other, tables)
  {
    PresentIffCounted(rules, kind);
    RemoveFirstEffect(rules, kind, other, tables);
    RemoveFirstEffect(rules, kind, kind, tables);
  }

  /** The loop goes on while the commands work and a rule of its kind is there. */
  lemma DrainStep(rules: seq<Rule>, kind: Kind, n: nat, luck: nat -> bool, k: nat)
    requires n > 0
    ensures if Present(rules, kind) && luck(k) then
              Drain(rules, kind, n, luck, k) == Drain(RemoveFirst(rules, kind), kind, n - 1, luck, k + 1)
            else
              Drain(rules, kind, n, luck, k).rules == rules && Drain(rules, kind, n, luck, k).calls >= k
  {
    if Present(rules, kind) {
      GreppedIfPresent(rules, kind);
    }
  }

  lemma {:induction false} DrainGoes(rules: seq<Rule>, kind: Kind, n: nat, luck: nat -> bool, k: nat,
                                     other: Kind, tables: seq<nat>) returns (gone: nat)
    requires AllInRange(tables) && Sought(kind, tables) && Sought(other, tables)
    ensures var d := Drain(rules, kind, n, luck, k);
      Drains(rules, d.rules, kind, gone, other, tables) && d.calls >= k && gone <= n
    ensures Lucky(luck, k) ==> gone == n || gone == Count(rules, kind)
    decreases n
  {
    gone := 0;
    if n > 0 {
      DrainStep(rules, kind, n, luck, k);
      if Present(rules, kind) && luck(k) {
        var next := RemoveFirst(rules, kind);
        OneDrained(rules, kind, other, tables);
        var more := DrainGoes(next, kind, n - 1, luck, k + 1, other, tables);
        DrainsTwice(rules, next, Drain(rules, kind, n, luck, k).rules, kind, 1, more, other, tables);
        gone := more + 1;
      } else {
        PresentIffCounted(rules, kind);
      }
    }
  }

  /** The loop removes up to n rules of its kind, first come first, and touches no other. */
  lemma DrainEffect(rules: seq<Rule>, kind: Kind, n: nat, luck: nat -> bool, k: nat, other: Kind, tables: seq<nat>)
    requires AllInRange(tables) && Sought(kind, tables) && Sought(other, tables)
    ensures var d := Drain(rules, kind, n, luck, k);
      && Spared(d.rules, tables) == Spared(rules, tables) && d.calls >= k
      && (other != kind ==> Count(d.rules, other) == Count(rules, other))
      && Minus(Count(rules, kind), n) <= Count(d.rules, kind)
      && (Lucky(luck, k) ==> Count(d.rules, kind) == Minus(Count(rules, kind), n))
  {
    var gone := DrainGoes(rules, kind, n, luck, k, other, tables);
  }

  // ---- one family ------------------------------------------------------------------

  predicate Increasing(tables: seq<nat>) {
    forall i, j :: 0 <= i < j < |tables| ==> tables[i] < tables[j]
  }

  lemma {:induction false} InsertKeeps(t: nat, tables: seq<nat>, u: nat)
    requires Increasing(tables)
    ensures Increasing(Insert(t, tables))
    ensures u in Insert(t, tables) <==> u == t || u in tables
    decreases |tables|
  {
    if tables != [] && t > tables[0] {
      var rest := Insert(t, tables[1..]);
      InsertKeeps(t, tables[1..], u);
      forall v | v in rest ensures tables[0] < v {
        InsertKeeps(t, tables[1..], v);
      }
      assert tables == [tables[0]] + tables[1..];
    }
  }

  lemma {:induction false} CollectMeans(rules: seq<Rule>, tables: seq<nat>, t: nat)
    requires Increasing(tables)
    ensures Increasing(Collect(rules, tables))
    ensures t in Collect(rules, tables) <==> t in tables || FwmarkTable(rules, t)
    decreases |rules|
  {
    if rules != [] {
      var r, rest := rules[0], rules[1..];
      var tables1 := if r.fwmark && InRange(r.table) then Insert(r.table, tables) else tables;
      InsertKeeps(r.table, tables, t);
      CollectMeans(rest, tables1, t);
      assert FwmarkTable(rules, t) <==> (r.fwmark && InRange(r.table) && r.table == t) || FwmarkTable(rest, t) by {
        assert forall i :: 0 <= i < |rest| ==> rest[i] == rules[i + 1];
        assert forall i :: 0 < i < |rules| ==> rules[i] == rest[i - 1];
      }
    }
  }

  lemma CollectInRange(rules: seq<Rule>)
    ensures AllInRange(Collect(rules, [])) && Increasing(Collect(rules, []))
  {
    CollectMeans(rules, [], 0);
    forall i | 0 <= i < |Collect(rules, [])| ensures InRange(Collect(rules, [])[i]) {
      CollectMeans(rules, [], Collect(rules, [])[i]);
    }
  }

  /** What cleanup is after, in numbers: the tables 51820 to 51899 that some fwmark rule leads to, and main's suppress rules. */
  lemma DoomedMeans(rules: seq<Rule>, r: Rule)
    ensures Doomed(r, Collect(rules, []))
       <==> (r.table == 254 && r.suppress0)
            || (51820 <= r.table <= 51899 && exists i :: 0 <= i < |rules| && rules[i].fwmark && rules[i].table == r.table)
  {
    CollectMeans(rules, [], r.table);
  }

  /** What is left of a kind once its loop has run: all but 32. */
  function Leftover(rules: seq<Rule>, kind: Kind): nat {
    Minus(Count(rules, kind), WG_RULE_LOOP_MAX)
  }

  lemma {:induction false} DrainTablesEffect(rules: seq<Rule>, todo: seq<nat>, luck: nat -> bool, k: nat,
                                             tables: seq<nat>, kind: Kind)
    requires AllInRange(tables) && Increasing(todo) && Sought(kind, tables)
    requires forall i :: 0 <= i < |todo| ==> todo[i] in tables
    ensures var d := DrainTables(rules, todo, luck, k);
      var mine := kind.OfTable? && kind.table in todo;
      && Spared(d.rules, tables) == Spared(rules, tables) && d.calls >= k
      && Leftover(rules, kind) <= Count(d.rules, kind)
      && (Lucky(luck, k) ==> Count(d.rules, kind) == if mine then Leftover(rules, kind) else Count(rules, kind))
    decreases |todo|
  {
    if todo != [] {
      var t, rest := todo[0], todo[1..];
      var d := Drain(rules, OfTable(t), WG_RULE_LOOP_MAX, luck, k);
      DrainEffect(rules, OfTable(t), WG_RULE_LOOP_MAX, luck, k, kind, tables);
      DrainTablesEffect(d.rules, rest, luck, d.calls, tables, kind);
      assert t !in rest;
      assert todo == [t] + rest;
      if kind == OfTable(t) {
        DrainTablesOther(d.rules, rest, luck, d.calls, tables, kind);
      }
    }
  }

  /** Loops over other tables leave a kind alone, whatever their luck. */
  lemma {:induction false} DrainTablesOther(rules: seq<Rule>, todo: seq<nat>, luck: nat -> bool, k: nat,
                                            tables: seq<nat>, kind: Kind)
    requires AllInRange(tables) && Sought(kind, tables) && (kind.OfTable? ==> kind.table !in todo)
    requires forall i :: 0 <= i < |todo| ==> todo[i] in tables
    ensures Count(DrainTables(rules, todo, luck, k).rules, kind) == Count(rules, kind)
    decreases |todo|
  {
    if todo != [] {
      var d := Drain(rules, OfTable(todo[0]), WG_RULE_LOOP_MAX, luck, k);
      DrainEffect(rules, OfTable(todo[0]), WG_RULE_LOOP_MAX, luck, k, kind, tables);
      DrainTablesOther(d.rules, todo[1..], luck, d.calls, tables, kind);
    }
  }

  /**
   Cleaning one family, however its commands fail: every rule outside its own range of tables
   and the suppress pair keeps its place, and no kind loses more than 32 rules. When the
   commands work, exactly what is over 32 of each kind is left.
   */
  lemma CleanFamilyEffect(rules: seq<Rule>, luck: nat -> bool, k: nat, kind: Kind)
    requires Sought(kind, Collect(rules, []))
    ensures var tables := Collect(rules, []);
      var d := CleanFamily(rules, luck, k);
      && Spared(d.rules, tables) == Spared(rules, tables) && d.calls >= k
      && Minus(Count(rules, kind), 32) <= Count(d.rules, kind)
      && (Lucky(luck, k) ==> Count(d.rules, kind) == Minus(Count(rules, kind), 32))
  {
    var tables := Collect(rules, []);
    CollectInRange(rules);
    DrainTablesEffect(rules, tables, luck, k, tables, kind);
    var d := DrainTables(rules, tables, luck, k);
    DrainEffect(d.rules, SuppressMain, WG_RULE_LOOP_MAX, luck, d.calls, kind, tables);
    DrainEffect(d.rules, SuppressMain, WG_RULE_LOOP_MAX, luck, d.calls, SuppressMain, tables);
    if kind.SuppressMain? {
      DrainTablesOther(rules, tables, luck, k, tables, kind);
    }
  }

  /** No rule that cleanup is after. */
  ghost predicate NoneDoomed(rules: seq<Rule>, tables: seq<nat>) {
    forall kind :: Sought(kind, tables) ==> Count(rules, kind) == 0
  }

  lemma {:induction false} SparedIffNoneDoomed(rules: seq<Rule>, tables: seq<nat>)
    ensures |Spared(rules, tables)| <= |rules|
    ensures Spared(rules, tables) == rules <==> NoneDoomed(rules, tables)
    decreases |rules|
  {
    if rules != [] {
      var r, rest := rules[0], rules[1..];
      SparedIffNoneDoomed(rest, tables);
      if Doomed(r, tables) {
        var kind := if Is(r, SuppressMain) then SuppressMain else OfTable(r.table);
        assert Sought(kind, tables) && Count(rules, kind) > 0;
      } else {
        assert forall kind :: Sought(kind, tables) ==> Count(rules, kind) == Count(rest, kind);
        assert rules == [r] + rest;
      }
    }
  }

  /** When the commands work, cleanup leaves just the spared rules iff no kind has over 32 copies. */
  lemma CleanFamilyClearsIff(rules: seq<Rule>, luck: nat -> bool, k: nat)
    requires Lucky(luck, k)
    ensures var tables := Collect(rules, []);
      CleanFamily(rules, luck, k).rules == Spared(rules, tables)
      <==> (forall kind :: Sought(kind, tables) ==> Count(rules, kind) <= 32)
  {
    var tables := Collect(rules, []);
    var left := CleanFamily(rules, luck, k).rules;
    forall kind | Sought(kind, tables)
      ensures Count(left, kind) == Leftover(rules, kind) && Spared(left, tables) == Spared(rules, tables)
    {
      CleanFamilyEffect(rules, luck, k, kind);
    }
    assert Sought(SuppressMain, tables);
    SparedIffNoneDoomed(left, tables);
  }

  // ---- up and down -----------------------------------------------------------------

  /** The copies that one bring-up can have put in front. */
  predicate Pair(pre: seq<Rule>) {
    pre == [] || pre == [FWMARK_RULE] || pre == [SUPPRESS_RULE] || pre == [SUPPRESS_RULE, FWMARK_RULE]
  }

  ghost predicate Layered(now: seq<Rule>, prior: seq<Rule>) {
    exists pre :: Pair(pre) && now == pre + prior
  }

  lemma {:induction false} ExecAppend(r: Rules, a: seq<Step>, b: seq<Step>, luck: nat -> bool, k: nat)
    ensures var ran := Exec(r, a, luck, k);
      Exec(r, a + b, luck, k) == if ran.ok then Exec(ran.rules, b, luck, ran.calls) else ran
    decreases |a|
  {
    if a == [] {
      assert a + b == b;
    } else {
      assert (a + b)[0] == a[0] && (a + b)[1..] == a[1..] + b;
      if luck(k) {
        ExecAppend(Effect(r, a[0].cmd), a[1..], b, luck, k + 1);
      } else if a[0].quiet {
        ExecAppend(r, a[1..], b, luck, k + 1);
      }
    }
  }

  /** A run that gets through has called every step. */
  lemma {:induction false} ExecCalls(r: Rules, steps: seq<Step>, luck: nat -> bool, k: nat)
    ensures Exec(r, steps, luck, k).ok ==> Exec(r, steps, luck, k).calls == k + |steps|
    decreases |steps|
  {
    if steps != [] {
      ExecCalls(if luck(k) then Effect(r, steps[0].cmd) else r, steps[1..], luck, k + 1);
    }
  }

  lemma {:induction false} ExecOthers(r: Rules, steps: seq<Step>, luck: nat -> bool, k: nat)
    requires forall i :: 0 <= i < |steps| ==> !steps[i].cmd.AddRule?
    ensures Exec(r, steps, luck, k).rules == r
    decreases |steps|
  {
    if steps != [] {
      ExecOthers(r, steps[1..], luck, k + 1);
    }
  }

  /** A bring-up gets through exactly when none of its steps fails that must not: all but those for IPv6. */
  lemma UpSucceedsIff(r: Rules, d: Directives, luck: nat -> bool, k: nat)
    ensures Exec(r, UpSteps(d), luck, k).ok
       <==> forall j :: k <= j < k + d.addresses + 1 + (if d.dns then 1 else 0) + (if d.hasV4Default then 4 else 0) ==> luck(j)
  {
    var must := LinkSteps(d) + FourSteps(d);
    assert UpSteps(d) == must + SixSteps(d);
    ExecAppend(r, must, SixSteps(d), luck, k);
    StrictSteps(r, must, luck, k);
    var ran := Exec(r, must, luck, k);
    QuietSteps(ran.rules, SixSteps(d), luck, ran.calls);
  }

  lemma {:induction false} StrictSteps(r: Rules, steps: seq<Step>, luck: nat -> bool, k: nat)
    requires forall i :: 0 <= i < |steps| ==> !steps[i].quiet
    ensures Exec(r, steps, luck, k).ok <==> forall j :: k <= j < k + |steps| ==> luck(j)
    decreases |steps|
  {
    if steps != [] {
      StrictSteps(Effect(r, steps[0].cmd), steps[1..], luck, k + 1);
    }
  }

  lemma {:induction false} QuietSteps(r: Rules, steps: seq<Step>, luck: nat -> bool, k: nat)
    requires forall i :: 0 <= i < |steps| ==> steps[i].quiet
    ensures Exec(r, steps, luck, k).ok
    decreases |steps|
  {
    if steps != [] {
      QuietSteps(if luck(k) then Effect(r, steps[0].cmd) else r, steps[1..], luck, k + 1);
    }
  }

  /** One step that adds a rule. */
  lemma RuleStep(r: Rules, f: Family, rule: Rule, quiet: bool, rest: seq<Step>, luck: nat -> bool, k: nat)
    ensures Exec(r, [Step(AddRule(f, rule), quiet)] + rest, luck, k)
         == if luck(k) then Exec(Effect(r, AddRule(f, rule)), rest, luck, k + 1)
            else if quiet then Exec(r, rest, luck, k + 1) else Ran(r, false, k + 1)
  {
    assert ([Step(AddRule(f, rule), quiet)] + rest)[1..] == rest;
  }

  /** What the two rule steps of one family leave, where the first has or has not worked. */
  function Laid(first: bool, second: bool): seq<Rule> {
    (if second then [SUPPRESS_RULE] else []) + (if first then [FWMARK_RULE] else [])
  }

  lemma LaidIsLayer(first: bool, second: bool, prior: seq<Rule>)
    ensures Layered(Laid(first, second) + prior, prior)
    ensures Laid(first, false) == if first then [FWMARK_RULE] else []
    ensures Laid(true, true) == [SUPPRESS_RULE, FWMARK_RULE]
    ensures [SUPPRESS_RULE] + (Laid(first, false) + prior) == Laid(first, true) + prior
  {
    LaidIs(first, second);
    LaidIs(first, true);
    LaidIs(first, false);
    assert Pair(Laid(first, second));
    InFrontOf([SUPPRESS_RULE], Laid(first, false), prior);
  }

  lemma LaidIs(first: bool, second: bool)
    ensures Laid(first, second) == if second then (if first then [SUPPRESS_RULE, FWMARK_RULE] else [SUPPRESS_RULE])
                                   else if first then [FWMARK_RULE] else []
    ensures Laid(first, true) == [SUPPRESS_RULE] + Laid(first, false)
  {
  }

  lemma InFrontOf(a: seq<Rule>, b: seq<Rule>, c: seq<Rule>)
    ensures a + (b + c) == a + b + c
  {
  }

  /** The second and the third step. */
  lemma SuppressLayers(r: Rules, f: Family, quiet: bool, luck: nat -> bool, k: nat)
    ensures var ran := Exec(r, [Step(AddRule(f, SUPPRESS_RULE), quiet)] + [Step(AddRoute(f), quiet)], luck, k);
      && ran.rules == (if luck(k) then Effect(r, AddRule(f, SUPPRESS_RULE)) else r)
      && (quiet ==> ran.ok) && (ran.ok && !quiet ==> luck(k))
  {
    RuleStep(r, f, SUPPRESS_RULE, quiet, [Step(AddRoute(f), quiet)], luck, k);
    ExecOthers(r, [Step(AddRoute(f), quiet)], luck, k + 1);
    ExecOthers(Effect(r, AddRule(f, SUPPRESS_RULE)), [Step(AddRoute(f), quiet)], luck, k + 1);
    assert [Step(AddRoute(f), quiet)][1..] == [];
  }

  /** The three default steps of one family, from rules without a layer of ours. */
  lemma DefaultLayers(r: Rules, f: Family, quiet: bool, luck: nat -> bool, k: nat)
    ensures var ran := Exec(r, DefaultSteps(f, quiet), luck, k);
      && Layered(ran.rules.Of(f), r.Of(f))
      && (f.V4? ==> ran.rules.v6 == r.v6) && (f.V6? ==> ran.rules.v4 == r.v4)
      && ((ran.ok && !quiet) ==> ran.rules.Of(f) == [SUPPRESS_RULE, FWMARK_RULE] + r.Of(f))
      && (quiet ==> ran.ok && ran.rules.Of(f) == Laid(luck(k), luck(k + 1)) + r.Of(f))
  {
    var rest := [Step(AddRule(f, SUPPRESS_RULE), quiet)] + [Step(AddRoute(f), quiet)];
    assert DefaultSteps(f, quiet) == [Step(AddRule(f, FWMARK_RULE), quiet)] + rest;
    RuleStep(r, f, FWMARK_RULE, quiet, rest, luck, k);
    var r1 := if luck(k) then Effect(r, AddRule(f, FWMARK_RULE)) else r;
    SuppressLayers(r1, f, quiet, luck, k + 1);
    LaidIsLayer(luck(k), luck(k + 1), r.Of(f));
    NoLayer(r.Of(f));
    assert [] + r.Of(f) == r.Of(f);
  }

  /** The number of the first IPv6 command of a bring-up that gets there. */
  function SixAt(d: Directives, k: nat): nat {
    k + |LinkSteps(d)| + if d.hasV4Default then 4 else 0
  }

  /** What a bring-up that gets through has put before the IPv6 rules: each add is tried once. */
  function SixLaid(d: Directives, luck: nat -> bool, k: nat): seq<Rule> {
    if d.hasV6Default then Laid(luck(SixAt(d, k)), luck(SixAt(d, k) + 1)) else []
  }

  /** The IPv4 part. */
  lemma FourLayers(r: Rules, d: Directives, luck: nat -> bool, k: nat)
    ensures var ran := Exec(r, FourSteps(d), luck, k);
      && Layered(ran.rules.v4, r.v4) && ran.rules.v6 == r.v6
      && (ran.ok ==> ran.rules.v4 == (if d.hasV4Default then [SUPPRESS_RULE, FWMARK_RULE] else []) + r.v4)
      && (ran.ok ==> ran.calls == k + if d.hasV4Default then 4 else 0)
  {
    NoLayer(r.v4);
    ExecCalls(r, FourSteps(d), luck, k);
    if d.hasV4Default {
      ExecAppend(r, DefaultSteps(V4, false), [Step(ValidMark, false)], luck, k);
      DefaultLayers(r, V4, false, luck, k);
      var ran := Exec(r, DefaultSteps(V4, false), luck, k);
      ExecOthers(ran.rules, [Step(ValidMark, false)], luck, ran.calls);
    } else {
      assert [] + r.v4 == r.v4;
    }
  }

  /** The IPv6 part, which cannot fail. */
  lemma SixLayers(r: Rules, d: Directives, luck: nat -> bool, k: nat)
    ensures var ran := Exec(r, SixSteps(d), luck, k);
      && ran.ok && Layered(ran.rules.v6, r.v6) && ran.rules.v4 == r.v4
      && ran.rules.v6 == (if d.hasV6Default then Laid(luck(k), luck(k + 1)) else []) + r.v6
  {
    NoLayer(r.v6);
    if d.hasV6Default {
      DefaultLayers(r, V6, true, luck, k);
    } else {
      assert [] + r.v6 == r.v6;
    }
  }

  /**
   However far a bring-up gets, each family is what it was with part of one pair in front. One that
   gets through has the whole IPv4 pair if it was asked for, and of the IPv6 pair what the kernel
   took; one that fails has not touched IPv6.
   */
  lemma UpLayers(r: Rules, d: Directives, luck: nat -> bool, k: nat)
    ensures var ran := Exec(r, UpSteps(d), luck, k);
      && Layered(ran.rules.v4, r.v4) && Layered(ran.rules.v6, r.v6)
      && (ran.ok ==> ran.rules.v4 == (if d.hasV4Default then [SUPPRESS_RULE, FWMARK_RULE] else []) + r.v4)
      && ran.rules.v6 == (if ran.ok then SixLaid(d, luck, k) else []) + r.v6
  {
    NoLayer(r.v4);
    NoLayer(r.v6);
    assert [] + r.v6 == r.v6;
    var link := LinkSteps(d);
    ExecAppend(r, link, FourSteps(d) + SixSteps(d), luck, k);
    ExecOthers(r, link, luck, k);
    ExecCalls(r, link, luck, k);
    var k1 := Exec(r, link, luck, k).calls;
    ExecAppend(r, FourSteps(d), SixSteps(d), luck, k1);
    FourLayers(r, d, luck, k1);
    var ran := Exec(r, FourSteps(d), luck, k1);
    SixLayers(ran.rules, d, luck, ran.calls);
  }

  lemma NoLayer(rules: seq<Rule>)
    ensures Layered(rules, rules)
  {
    assert Pair([]) && rules == [] + rules;
  }

  /** No rule in our range of tables and no suppress rule for main. */
  predicate Unowned(rules: seq<Rule>) {
    forall i :: 0 <= i < |rules| ==> !InRange(rules[i].table) && !Is(rules[i], SuppressMain)
  }

  lemma {:induction false} UnownedIsSpared(rules: seq<Rule>, tables: seq<nat>, kind: Kind)
    requires Unowned(rules) && AllInRange(tables) && Sought(kind, tables)
    ensures Spared(rules, tables) == rules && Count(rules, kind) == 0
    decreases |rules|
  {
    if rules != [] {
      UnownedIsSpared(rules[1..], tables, kind);
      assert rules == [rules[0]] + rules[1..];
    }
  }

  /** Cleaning takes a layer off, and nothing else. */
  lemma CleanTakesLayer(now: seq<Rule>, prior: seq<Rule>, luck: nat -> bool, k: nat)
    requires Layered(now, prior) && Unowned(prior) && Lucky(luck, k)
    ensures CleanFamily(now, luck, k).rules == prior
  {
    var pre :| Pair(pre) && now == pre + prior;
    var tables := Collect(now, []);
    CollectInRange(now);
    forall kind | Sought(kind, tables) ensures Count(now, kind) <= 2 {
      PairCounted(pre, prior, tables, kind);
    }
    assert Sought(SuppressMain, tables);
    CollectMeans(now, [], WG_TABLE_MIN);
    assert FWMARK_RULE in pre ==> WG_TABLE_MIN in tables;
    PairCounted(pre, prior, tables, SuppressMain);
    CleanFamilyClearsIff(now, luck, k);
  }

  lemma PairCounted(pre: seq<Rule>, prior: seq<Rule>, tables: seq<nat>, kind: Kind)
    requires Pair(pre) && Unowned(prior) && AllInRange(tables) && Sought(kind, tables)
    ensures Count(pre + prior, kind) <= 2
    ensures (FWMARK_RULE in pre ==> WG_TABLE_MIN in tables) ==> Spared(pre + prior, tables) == prior
  {
    UnownedIsSpared(prior, tables, kind);
    if pre == [] {
      assert pre + prior == prior;
    } else {
      var rest := (pre + prior)[1..];
      assert rest == pre[1..] + prior;
      if |pre| == 1 {
        assert rest == prior;
      } else {
        assert rest[1..] == prior;
      }
    }
  }

  /**
   A bring-up that fails once its link is there, or a bring-up followed by AmneziaWgDown,
   returns both families to their prior rules, given no rules in our range before. With a
   tunnel left that could own them, exactly when there was nothing to take back.
   */
  lemma CleanRestoresIff(prior: Rules, d: Directives, luck: nat -> bool, k: nat, guarded: bool, j: nat)
    requires Unowned(prior.v4) && Unowned(prior.v6) && Lucky(luck, j)
    ensures var now := Exec(prior, UpSteps(d), luck, k).rules;
      Clean(now, guarded, luck, j) == prior <==> (!guarded || now == prior)
  {
    UpLayers(prior, d, luck, k);
    var now := Exec(prior, UpSteps(d), luck, k).rules;
    if !guarded {
      var d4 := CleanFamily(now.v4, luck, j);
      CleanFamilyEffect(now.v4, luck, j, SuppressMain);
      CleanTakesLayer(now.v4, prior.v4, luck, j);
      CleanTakesLayer(now.v6, prior.v6, luck, d4.calls);
    }
  }

  /**
   The one failure without cleanup: the state file cannot be written, and the rules stay. Both
   families are as before exactly when IPv4 was not asked for, and of the IPv6 rules none was, or
   the kernel took neither.
   */
  lemma StateNotWrittenLeaksIff(prior: Rules, d: Directives, luck: nat -> bool, k: nat)
    requires Exec(prior, UpSteps(d), luck, k).ok
    ensures Exec(prior, UpSteps(d), luck, k).rules == prior
       <==> !d.hasV4Default && (d.hasV6Default ==> !luck(SixAt(d, k)) && !luck(SixAt(d, k) + 1))
  {
    UpLayers(prior, d, luck, k);
    InFront([SUPPRESS_RULE, FWMARK_RULE], prior.v4);
    InFront([], prior.v4);
    InFront(SixLaid(d, luck, k), prior.v6);
  }

  /** A bring-up for IPv6 alone, whose every command works and whose state file cannot be written. */
  lemma SixPairStays(luck: nat -> bool)
    requires forall k :: luck(k)
    ensures var ran := Exec(Rules([], []), UpSteps(Directives(0, false, false, true)), luck, 0);
      ran.ok && ran.rules == Rules([], [Rule(254, false, true), Rule(51820, true, false)])
  {
    var d := Directives(0, false, false, true);
    AllWork(Rules([], []), UpSteps(d), luck, 0);
    UpLayers(Rules([], []), d, luck, 0);
    LaidIsLayer(true, true, []);
  }

  lemma {:induction false} AllWork(r: Rules, steps: seq<Step>, luck: nat -> bool, k: nat)
    requires forall j :: luck(j)
    ensures Exec(r, steps, luck, k).ok
    decreases |steps|
  {
    if steps != [] {
      AllWork(Effect(r, steps[0].cmd), steps[1..], luck, k + 1);
    }
  }

  lemma InFront(pre: seq<Rule>, rules: seq<Rule>)
    ensures pre + rules == rules <==> pre == []
  {
    assert |pre + rules| == |pre| + |rules|;
  }
}
