/**
 From plugin hooks to `settings.json`: the provider registry, the approval gate, and the grouping of
 commands by event and matcher.
 */
module Hooks {
  import opened Prelude

  datatype HookEvent =
    | PreToolUse | PostToolUse | PreCompact | PostCompact
    | Stop | Notification | SessionStart | UserPromptSubmit

  datatype HookDef = HookDef(event: HookEvent, matcher: string, command: string, origin: string)

  datatype Provider = Provider(name: string, hooks: seq<HookDef>)

  datatype HookMatcherGroup = HookMatcherGroup(matcher: string, commands: seq<string>)

  type SettingsTree = map<HookEvent, seq<HookMatcherGroup>>

  // ----- Cleanliness ----------------------------------------------------------------------------

  predicate IsControl(c: char) {
    c as int < 0x20 || 0x7F <= c as int <= 0x9F
  }

  /** Unicode general category Cf, as the source tabulates it. */
  predicate IsFormat(c: char) {
    var n := c as int;
    || n == 0x00AD || 0x0600 <= n <= 0x0605 || n == 0x061C || n == 0x06DD || n == 0x070F
    || 0x0890 <= n <= 0x0891 || n == 0x08E2 || n == 0x180E || 0x200B <= n <= 0x200F
    || 0x202A <= n <= 0x202E || 0x2060 <= n <= 0x2064 || 0x2066 <= n <= 0x206F || n == 0xFEFF
    || 0xFFF9 <= n <= 0xFFFB || n == 0x110BD || n == 0x110CD || 0x13430 <= n <= 0x1343F
    || 0x1BCA0 <= n <= 0x1BCA3 || 0x1D173 <= n <= 0x1D17A || n == 0xE0001 || 0xE0020 <= n <= 0xE007F
  }

  predicate CleanText(s: string) {
    forall i :: 0 <= i < |s| ==> !(IsControl(s[i]) && s[i] != '\t') && !IsFormat(s[i])
  }

  predicate Clean(h: HookDef) {
    CleanText(h.matcher) && CleanText(h.command)
  }

  function Keep(hooks: seq<HookDef>, p: HookDef -> bool): seq<HookDef> {
    if hooks == [] then []
    else Keep(Init(hooks), p) + if p(Last(hooks)) then [Last(hooks)] else []
  }

  function ValidHooks(hooks: seq<HookDef>): seq<HookDef> {
    Keep(hooks, Clean)
  }

  /** Core overwrites the origin, so a plugin cannot speak in another's name. */
  function StampOrigin(hooks: seq<HookDef>, origin: string): seq<HookDef> {
    seq(|hooks|, i requires 0 <= i < |hooks| => hooks[i].(origin := origin))
  }

  /** What `register_from_json` registers. */
  function FromPlugin(name: string, hooks: seq<HookDef>): Provider {
    Provider(name, ValidHooks(StampOrigin(hooks, name)))
  }

  lemma {:induction false} KeepHas(hooks: seq<HookDef>, p: HookDef -> bool, h: HookDef)
    ensures h in Keep(hooks, p) <==> h in hooks && p(h)
  {
    if hooks != [] {
      KeepHas(Init(hooks), p, h);
      assert h in hooks <==> h in Init(hooks) || h == Last(hooks);
    }
  }

  /** A plugin registers exactly its clean hooks, every one under the plugin's own name. */
  lemma PluginSpeaksForItself(name: string, hooks: seq<HookDef>, h: HookDef)
    ensures h in FromPlugin(name, hooks).hooks <==>
            h.origin == name && Clean(h) && exists g :: g in hooks && g.(origin := name) == h
  {
    var stamped := StampOrigin(hooks, name);
    KeepHas(stamped, Clean, h);
    if h in stamped {
      var i :| 0 <= i < |stamped| && stamped[i] == h;
      assert hooks[i] in hooks && hooks[i].(origin := name) == h;
    }
    if exists g :: g in hooks && g.(origin := name) == h {
      var g :| g in hooks && g.(origin := name) == h;
      var i :| 0 <= i < |hooks| && hooks[i] == g;
      assert stamped[i] == h;
    }
  }

  /** One more hook of a plugin is kept at the end of the others, or dropped. */
  lemma PluginHooksInOrder(name: string, hooks: seq<HookDef>, h: HookDef)
    ensures FromPlugin(name, []) == Provider(name, [])
    ensures FromPlugin(name, hooks + [h]).hooks ==
            FromPlugin(name, hooks).hooks
            + if NothingHidden(h.matcher) && NothingHidden(h.command) then [h.(origin := name)] else []
  {
    CleanIffNothingHidden(h.matcher);
    CleanIffNothingHidden(h.command);
    assert StampOrigin(hooks + [h], name) == StampOrigin(hooks, name) + [h.(origin := name)];
    assert Init(StampOrigin(hooks + [h], name)) == StampOrigin(hooks, name);
  }

  // ----- What may not be hidden in a command ------------------------------------------------------

  /** The format characters, first and last of each run. */
  const FORMAT_RANGES: seq<(int, int)> := [
    (0x00AD, 0x00AD), (0x0600, 0x0605), (0x061C, 0x061C), (0x06DD, 0x06DD), (0x070F, 0x070F), (0x0890, 0x0891),
    (0x08E2, 0x08E2), (0x180E, 0x180E), (0x200B, 0x200F), (0x202A, 0x202E), (0x2060, 0x2064), (0x2066, 0x206F),
    (0xFEFF, 0xFEFF), (0xFFF9, 0xFFFB), (0x110BD, 0x110BD), (0x110CD, 0x110CD), (0x13430, 0x1343F),
    (0x1BCA0, 0x1BCA3), (0x1D173, 0x1D17A), (0xE0001, 0xE0001), (0xE0020, 0xE007F)
  ]

  predicate InRange(c: char, i: int) {
    0 <= i < |FORMAT_RANGES| && FORMAT_RANGES[i].0 <= c as int <= FORMAT_RANGES[i].1
  }

  /** A control character other than tab, or a format character. */
  ghost predicate IsHidden(c: char) {
    || (c as int < 0x20 && c as int != 9)
    || 0x7F <= c as int <= 0x9F
    || exists i :: InRange(c, i)
  }

  ghost predicate NothingHidden(s: string) {
    forall i :: 0 <= i < |s| ==> !IsHidden(s[i])
  }

  lemma FormatIffInRanges(c: char)
    ensures IsFormat(c) <==> exists i :: InRange(c, i)
  {
    var n := c as int;
    forall i | InRange(c, i) ensures IsFormat(c) {
      assert || i == 0 || i == 1 || i == 2 || i == 3 || i == 4 || i == 5 || i == 6 || i == 7 || i == 8 || i == 9 || i == 10
             || i == 11 || i == 12 || i == 13 || i == 14 || i == 15 || i == 16 || i == 17 || i == 18 || i == 19 || i == 20;
    }
    if IsFormat(c) {
      var i := if n <= 0x00AD then 0 else if n <= 0x0605 then 1 else if n <= 0x061C then 2 else if n <= 0x06DD then 3
               else if n <= 0x070F then 4 else if n <= 0x0891 then 5 else if n <= 0x08E2 then 6 else if n <= 0x180E then 7
               else if n <= 0x200F then 8 else if n <= 0x202E then 9 else if n <= 0x2064 then 10
               else if n <= 0x206F then 11 else if n <= 0xFEFF then 12 else if n <= 0xFFFB then 13
               else if n <= 0x110BD then 14 else if n <= 0x110CD then 15 else if n <= 0x1343F then 16
               else if n <= 0x1BCA3 then 17 else if n <= 0x1D17A then 18 else if n <= 0xE0001 then 19 else 20;
      assert InRange(c, i);
    }
  }

  lemma CleanIffNothingHidden(s: string)
    ensures CleanText(s) <==> NothingHidden(s)
  {
    forall i | 0 <= i < |s| ensures !(IsControl(s[i]) && s[i] != '\t') && !IsFormat(s[i]) <==> !IsHidden(s[i]) {
      FormatIffInRanges(s[i]);
    }
  }

  /** A hook survives exactly when neither its matcher nor its command hides anything. */
  lemma SurvivesIffNothingHidden(hooks: seq<HookDef>, h: HookDef)
    ensures h in ValidHooks(hooks) <==> h in hooks && NothingHidden(h.matcher) && NothingHidden(h.command)
  {
    KeepHas(hooks, Clean, h);
    CleanIffNothingHidden(h.matcher);
    CleanIffNothingHidden(h.command);
  }

  // ----- Registry -------------------------------------------------------------------------------

  function IndexOf(ps: seq<Provider>, name: string): Option<nat>
  {
    if ps == [] then None
    else
      var before := IndexOf(Init(ps), name);
      if before.Some? then before
      else if Last(ps).name == name then Some(|ps| - 1)
      else None
  }

  lemma {:induction false} IndexOfFirst(ps: seq<Provider>, name: string)
    ensures IndexOf(ps, name).Some? ==>
              var k := IndexOf(ps, name).value;
              k < |ps| && ps[k].name == name && forall i :: 0 <= i < k ==> ps[i].name != name
    ensures IndexOf(ps, name).None? ==> forall i :: 0 <= i < |ps| ==> ps[i].name != name
  {
    if ps != [] {
      IndexOfFirst(Init(ps), name);
    }
  }

  function Registered(ps: seq<Provider>, p: Provider): seq<Provider>
  {
    var k := IndexOf(ps, p.name);
    if k.Some? && k.value < |ps| then ps[k.value := p] else ps + [p]
  }

  function Deregistered(ps: seq<Provider>, name: string): seq<Provider> {
    if ps == [] then []
    else Deregistered(Init(ps), name) + if Last(ps).name != name then [Last(ps)] else []
  }

  class Registry {
    var providers: seq<Provider>

    constructor ()
      ensures providers == []
    {
      providers := [];
    }

    /** Replaces the provider of that name in place, or appends. */
    method Register(p: Provider)
      modifies this
      ensures providers == Registered(old(providers), p)
    {
      IndexOfFirst(providers, p.name);
      for i := 0 to |providers|
        invariant providers == old(providers)
        invariant forall j :: 0 <= j < i ==> providers[j].name != p.name
      {
        if providers[i].name == p.name {
          assert IndexOf(providers, p.name) == Some(i);
          providers := providers[i := p];
          return;
        }
      }
      providers := providers + [p];
    }

    method Deregister(name: string) returns (removed: bool)
      modifies this
      ensures providers == Deregistered(old(providers), name)
      ensures removed <==> exists p :: p in old(providers) && p.name == name
    {
      var before := |providers|;
      var kept: seq<Provider> := [];
      for i := 0 to |providers|
        invariant providers == old(providers)
        invariant kept == Deregistered(providers[..i], name) && |kept| <= i
        invariant |kept| == i <==> forall j :: 0 <= j < i ==> providers[j].name != name
      {
        assert Init(providers[..i + 1]) == providers[..i];
        if providers[i].name != name {
          kept := kept + [providers[i]];
        }
      }
      assert providers[..|providers|] == providers;
      providers := kept;
      removed := before != |providers|;
    }
  }

  datatype RegistryOp = RegisterOp(p: Provider) | DeregisterOp(name: string)

  function Providers(ops: seq<RegistryOp>): seq<Provider> {
    if ops == [] then []
    else
      match Last(ops)
      case RegisterOp(p) => Registered(Providers(Init(ops)), p)
      case DeregisterOp(name) => Deregistered(Providers(Init(ops)), name)
  }

  /** The contribution a name stands for: its latest registration, unless deregistered since. */
  function Latest(ops: seq<RegistryOp>, name: string): Option<Provider> {
    if ops == [] then None
    else
      match Last(ops)
      case RegisterOp(p) => if p.name == name then Some(p) else Latest(Init(ops), name)
      case DeregisterOp(n) => if n == name then None else Latest(Init(ops), name)
  }

  /** When the name's present stay began: its first registration since it was last gone. */
  function StandingSince(ops: seq<RegistryOp>, name: string): nat {
    if ops == [] then 0
    else
      match Last(ops)
      case RegisterOp(p) =>
        if p.name == name && Latest(Init(ops), name).None? then |ops| else StandingSince(Init(ops), name)
      case DeregisterOp(_) => StandingSince(Init(ops), name)
  }

  /** Each standing name once, with its latest contribution, in the order the stays began. */
  ghost predicate FaithfulTo(ps: seq<Provider>, ops: seq<RegistryOp>) {
    && (forall i :: 0 <= i < |ps| ==> Latest(ops, ps[i].name) == Some(ps[i]))
    && (forall name :: Latest(ops, name).Some? ==> Latest(ops, name).value in ps)
    && (forall i, j :: 0 <= i < j < |ps| ==> StandingSince(ops, ps[i].name) < StandingSince(ops, ps[j].name))
    && (forall i :: 0 <= i < |ps| ==> StandingSince(ops, ps[i].name) <= |ops|)
  }

  lemma {:induction false} LatestKeepsName(ops: seq<RegistryOp>, name: string)
    ensures Latest(ops, name).Some? ==> Latest(ops, name).value.name == name
  {
    if ops != [] {
      LatestKeepsName(Init(ops), name);
    }
  }

  /** What one more operation does to the two history functions. */
  lemma HistoryAfter(ops: seq<RegistryOp>, op: RegistryOp, name: string)
    ensures op.RegisterOp? ==>
              && Latest(ops + [op], name) == (if op.p.name == name then Some(op.p) else Latest(ops, name))
              && StandingSince(ops + [op], name) ==
                 (if op.p.name == name && Latest(ops, name).None? then |ops| + 1 else StandingSince(ops, name))
    ensures op.DeregisterOp? ==>
              && Latest(ops + [op], name) == (if op.name == name then None else Latest(ops, name))
              && StandingSince(ops + [op], name) == StandingSince(ops, name)
  {
    assert Init(ops + [op]) == ops;
  }

  lemma ReplaceStaysFaithful(ps: seq<Provider>, ops: seq<RegistryOp>, p: Provider, k: nat)
    requires FaithfulTo(ps, ops) && k < |ps| && ps[k].name == p.name
    ensures FaithfulTo(ps[k := p], ops + [RegisterOp(p)])
  {
    var op := RegisterOp(p);
    var ps' := ps[k := p];
    forall i | 0 <= i < |ps|
      ensures Latest(ops + [op], ps'[i].name) == Some(ps'[i])
      ensures StandingSince(ops + [op], ps'[i].name) == StandingSince(ops, ps[i].name)
    {
      HistoryAfter(ops, op, ps[i].name);
      assert i == k || StandingSince(ops, ps[i].name) != StandingSince(ops, ps[k].name);
    }
    forall name | Latest(ops + [op], name).Some? ensures Latest(ops + [op], name).value in ps' {
      HistoryAfter(ops, op, name);
      LatestKeepsName(ops, name);
      assert ps'[k] == p;
      if name != p.name {
        var i :| 0 <= i < |ps| && ps[i] == Latest(ops, name).value;
        assert ps'[i] == ps[i];
      }
    }
  }

  lemma AppendStaysFaithful(ps: seq<Provider>, ops: seq<RegistryOp>, p: Provider)
    requires FaithfulTo(ps, ops) && forall i :: 0 <= i < |ps| ==> ps[i].name != p.name
    ensures FaithfulTo(ps + [p], ops + [RegisterOp(p)])
  {
    var op := RegisterOp(p);
    var ps' := ps + [p];
    LatestKeepsName(ops, p.name);
    assert Latest(ops, p.name).None?;
    HistoryAfter(ops, op, p.name);
    forall i | 0 <= i < |ps|
      ensures Latest(ops + [op], ps'[i].name) == Some(ps'[i])
      ensures StandingSince(ops + [op], ps'[i].name) == StandingSince(ops, ps[i].name)
    {
      HistoryAfter(ops, op, ps[i].name);
    }
    forall name | Latest(ops + [op], name).Some? ensures Latest(ops + [op], name).value in ps' {
      HistoryAfter(ops, op, name);
    }
  }

  lemma {:induction false} DeregisteredHas(ps: seq<Provider>, name: string, p: Provider)
    ensures p in Deregistered(ps, name) <==> p in ps && p.name != name
  {
    if ps != [] {
      DeregisteredHas(Init(ps), name, p);
      assert p in ps <==> p in Init(ps) || p == Last(ps);
    }
  }

  lemma {:induction false} DeregisteredKeepsOrder(ps: seq<Provider>, name: string, ops: seq<RegistryOp>)
    requires forall i, j :: 0 <= i < j < |ps| ==> StandingSince(ops, ps[i].name) < StandingSince(ops, ps[j].name)
    ensures
      var out := Deregistered(ps, name);
      forall i, j :: 0 <= i < j < |out| ==> StandingSince(ops, out[i].name) < StandingSince(ops, out[j].name)
  {
    if ps != [] {
      DeregisteredKeepsOrder(Init(ps), name, ops);
      var before := Deregistered(Init(ps), name);
      forall i | 0 <= i < |before|
        ensures StandingSince(ops, before[i].name) < StandingSince(ops, Last(ps).name)
      {
        DeregisteredHas(Init(ps), name, before[i]);
        var k :| 0 <= k < |Init(ps)| && Init(ps)[k] == before[i];
        assert ps[k] == before[i];
      }
    }
  }

  lemma DeregisterStaysFaithful(ps: seq<Provider>, ops: seq<RegistryOp>, name: string)
    requires FaithfulTo(ps, ops)
    ensures FaithfulTo(Deregistered(ps, name), ops + [DeregisterOp(name)])
  {
    var op := DeregisterOp(name);
    var out := Deregistered(ps, name);
    DeregisteredKeepsOrder(ps, name, ops);
    forall i | 0 <= i < |out|
      ensures Latest(ops + [op], out[i].name) == Some(out[i])
      ensures StandingSince(ops + [op], out[i].name) == StandingSince(ops, out[i].name) <= |ops|
    {
      DeregisteredHas(ps, name, out[i]);
      HistoryAfter(ops, op, out[i].name);
    }
    forall n | Latest(ops + [op], n).Some? ensures Latest(ops + [op], n).value in out {
      HistoryAfter(ops, op, n);
      LatestKeepsName(ops, n);
      DeregisteredHas(ps, name, Latest(ops, n).value);
    }
  }

  /** After every run of registrations and deregistrations the list says what the history says. */
  lemma {:induction false} RegistryFollowsHistory(ops: seq<RegistryOp>)
    ensures FaithfulTo(Providers(ops), ops)
  {
    if ops != [] {
      RegistryFollowsHistory(Init(ops));
      assert ops == Init(ops) + [Last(ops)];
      var ps := Providers(Init(ops));
      match Last(ops)
      case RegisterOp(p) =>
        IndexOfFirst(ps, p.name);
        if IndexOf(ps, p.name).Some? {
          ReplaceStaysFaithful(ps, Init(ops), p, IndexOf(ps, p.name).value);
        } else {
          AppendStaysFaithful(ps, Init(ops), p);
        }
      case DeregisterOp(name) =>
        DeregisterStaysFaithful(ps, Init(ops), name);
    }
  }

  // ----- Approval -------------------------------------------------------------------------------

  type byte = b: int | 0 <= b < 256

  /** `sha` and `utf8` stand for SHA-256 in hex and for the string encoding. */
  datatype Codec = Codec(sha: seq<byte> -> string, utf8: string -> seq<byte>)

  type Approvals = set<(string, string)>

  function EventText(e: HookEvent): string {
    match e
    case PreToolUse => "\"PreToolUse\""
    case PostToolUse => "\"PostToolUse\""
    case PreCompact => "\"PreCompact\""
    case PostCompact => "\"PostCompact\""
    case Stop => "\"Stop\""
    case Notification => "\"Notification\""
    case SessionStart => "\"SessionStart\""
    case UserPromptSubmit => "\"UserPromptSubmit\""
  }

  /** The low `width` bytes of `n`, least significant first. */
  function LittleEndian(n: nat, width: nat): (bs: seq<byte>)
    ensures |bs| == width
  {
    if width == 0 then [] else [n % 256] + LittleEndian(n / 256, width - 1)
  }

  function FromLittleEndian(bs: seq<byte>): nat {
    if bs == [] then 0 else bs[0] + 256 * FromLittleEndian(bs[1..])
  }

  function Pow256(width: nat): (p: nat)
    ensures p > 0
  {
    if width == 0 then 1 else 256 * Pow256(width - 1)
  }

  lemma {:induction false} LittleEndianRoundTrip(n: nat, width: nat)
    requires n < Pow256(width)
    ensures FromLittleEndian(LittleEndian(n, width)) == n
  {
    if width > 0 {
      LittleEndianRoundTrip(n / 256, width - 1);
      assert LittleEndian(n, width)[1..] == LittleEndian(n / 256, width - 1);
    }
  }

  /** The low byte comes first. */
  lemma LowByteFirst(low: byte, high: nat, width: nat)
    requires width > 0
    ensures LittleEndian(low + 256 * high, width) == [low] + LittleEndian(high, width - 1)
  {
    var n := low + 256 * high;
    assert n % 256 == low && n / 256 == high;
  }

  /** One part of the pre-hash bytes: its length in eight bytes, then itself. */
  function Framed(part: seq<byte>): seq<byte> {
    LittleEndian(|part|, 8) + part
  }

  function PreHash(c: Codec, h: HookDef): seq<byte> {
    Framed(c.utf8(EventText(h.event))) + Framed(c.utf8(h.matcher)) + Framed(c.utf8(h.command))
  }

  /** Reads one framed part off the front. */
  function Unframe(bs: seq<byte>): Option<(seq<byte>, seq<byte>)> {
    if |bs| < 8 then None
    else
      var n := FromLittleEndian(bs[..8]);
      if |bs| - 8 < n then None else Some((bs[8..8 + n], bs[8 + n..]))
  }

  lemma UnframeFramed(part: seq<byte>, rest: seq<byte>)
    requires |part| < Pow256(8)
    ensures Unframe(Framed(part) + rest) == Some((part, rest))
  {
    var bs := Framed(part) + rest;
    LittleEndianRoundTrip(|part|, 8);
    assert bs[..8] == LittleEndian(|part|, 8);
    assert bs[8..8 + |part|] == part && bs[8 + |part|..] == rest;
  }

  ghost predicate Injective<A(!new), B>(f: A -> B) {
    forall x, y :: f(x) == f(y) ==> x == y
  }

  /** Every string in memory is shorter than 2^64 bytes. */
  ghost predicate Encodable(c: Codec, h: HookDef) {
    |c.utf8(EventText(h.event))| < Pow256(8) && |c.utf8(h.matcher)| < Pow256(8) && |c.utf8(h.command)| < Pow256(8)
  }

  lemma EventTextsDiffer(a: HookEvent, b: HookEvent)
    requires EventText(a) == EventText(b)
    ensures a == b
  {
    assert |EventText(a)| == |EventText(b)|;
    if |EventText(a)| == 14 {
      assert EventText(a)[1] == EventText(b)[1];
    }
  }

  /** The pre-hash bytes decode to one event, matcher and command: no boundary can be shifted. */
  lemma PreHashIsDecodable(c: Codec, h: HookDef)
    requires Encodable(c, h)
    ensures
      var first := Unframe(PreHash(c, h));
      && first.Some? && first.value.0 == c.utf8(EventText(h.event))
      && var second := Unframe(first.value.1);
         && second.Some? && second.value.0 == c.utf8(h.matcher)
         && Unframe(second.value.1) == Some((c.utf8(h.command), []))
  {
    var e, m, k := c.utf8(EventText(h.event)), c.utf8(h.matcher), c.utf8(h.command);
    UnframeFramed(e, Framed(m) + Framed(k));
    UnframeFramed(m, Framed(k));
    UnframeFramed(k, []);
    assert PreHash(c, h) == Framed(e) + (Framed(m) + Framed(k));
    assert Framed(k) + [] == Framed(k);
  }

  lemma PreHashIsInjective(c: Codec, h: HookDef, g: HookDef)
    requires Encodable(c, h) && Encodable(c, g) && Injective(c.utf8)
    requires PreHash(c, h) == PreHash(c, g)
    ensures h.event == g.event && h.matcher == g.matcher && h.command == g.command
  {
    PreHashIsDecodable(c, h);
    PreHashIsDecodable(c, g);
    EventTextsDiffer(h.event, g.event);
  }

  function HookHash(c: Codec, h: HookDef): string {
    c.sha(PreHash(c, h))
  }

  predicate IsApproved(c: Codec, approvals: Approvals, h: HookDef) {
    (h.origin, HookHash(c, h)) in approvals
  }

  function Gate(c: Codec, approvals: Approvals): HookDef -> bool {
    h => IsApproved(c, approvals, h)
  }

  /** What the approval file holds; anything that does not decode counts as nothing. */
  datatype ApprovalFile = Missing | Undecodable | Decodes(approvals: Approvals)

  /** `load`: the gate fails closed. */
  function LoadApprovals(file: ApprovalFile): Approvals {
    if file.Decodes? then file.approvals else {}
  }

  /** How far `approve` gets. */
  datatype ApproveIo = Completes | NoHome | NoDirectory | NoLock | WriteFails

  function FileAfterApprove(file: ApprovalFile, origin: string, hash: string, io: ApproveIo): ApprovalFile {
    if io.Completes? then Decodes(LoadApprovals(file) + {(origin, hash)}) else file
  }

  /** The approval file: a read-modify-write of a set under an exclusive lock. */
  class ApprovalStore {
    var file: ApprovalFile

    constructor ()
      ensures file == Missing
    {
      file := Missing;
    }

    /** All or nothing; a file that did not decode is replaced by the one new approval. */
    method Approve(origin: string, hash: string, io: ApproveIo) returns (r: Result<(), ApproveIo>)
      modifies this
      ensures r == if io.Completes? then Ok(()) else Err(io)
      ensures file == FileAfterApprove(old(file), origin, hash, io)
    {
      if io.NoHome? || io.NoDirectory? || io.NoLock? {
        return Err(io);
      }
      var approvals := LoadApprovals(file);
      approvals := approvals + {(origin, hash)};
      if io.WriteFails? {
        return Err(io);
      }
      file := Decodes(approvals);
      return Ok(());
    }
  }

  function AllHooks(ps: seq<Provider>): seq<HookDef> {
    ValidHooks(Contributions(ps))
  }

  function Contributions(ps: seq<Provider>): seq<HookDef> {
    FlatMap((p: Provider) => p.hooks, ps)
  }

  function ComposeHooks(c: Codec, approvals: Approvals, ps: seq<Provider>): seq<HookDef> {
    Keep(AllHooks(ps), Gate(c, approvals))
  }

  // ----- The settings tree ----------------------------------------------------------------------

  /** The commands bound to one event and matcher, in contribution order. */
  function CommandsFor(hooks: seq<HookDef>, e: HookEvent, m: string): seq<string> {
    if hooks == [] then []
    else CommandsFor(Init(hooks), e, m)
         + if Last(hooks).event == e && Last(hooks).matcher == m then [Last(hooks).command] else []
  }

  /** The matchers of one event, in the order they first appear. */
  function MatchersOf(hooks: seq<HookDef>, e: HookEvent): seq<string> {
    if hooks == [] then []
    else
      var before := MatchersOf(Init(hooks), e);
      if Last(hooks).event == e && Last(hooks).matcher !in before then before + [Last(hooks).matcher] else before
  }

  function GroupsOf(tree: SettingsTree, e: HookEvent): seq<HookMatcherGroup> {
    if e in tree then tree[e] else []
  }

  /** One group per matcher, in order of first appearance, holding exactly that matcher's commands. */
  ghost predicate Describes(groups: seq<HookMatcherGroup>, hooks: seq<HookDef>, e: HookEvent) {
    && |groups| == |MatchersOf(hooks, e)|
    && forall i :: 0 <= i < |groups| ==>
                     groups[i] == HookMatcherGroup(MatchersOf(hooks, e)[i], CommandsFor(hooks, e, MatchersOf(hooks, e)[i]))
  }

  function Find(groups: seq<HookMatcherGroup>, m: string): (k: nat)
    ensures k <= |groups|
    ensures k < |groups| ==> groups[k].matcher == m
    ensures forall i :: 0 <= i < k ==> groups[i].matcher != m
  {
    if groups == [] then 0
    else if groups[0].matcher == m then 0
    else 1 + Find(groups[1..], m)
  }

  /** Merge into the group of that matcher, else start one. */
  function Merged(groups: seq<HookMatcherGroup>, m: string, command: string): seq<HookMatcherGroup> {
    var k := Find(groups, m);
    if k < |groups| then groups[k := groups[k].(commands := groups[k].commands + [command])]
    else groups + [HookMatcherGroup(m, [command])]
  }

  lemma {:induction false} MatchersAreDistinct(hooks: seq<HookDef>, e: HookEvent)
    ensures forall i, j :: 0 <= i < j < |MatchersOf(hooks, e)| ==> MatchersOf(hooks, e)[i] != MatchersOf(hooks, e)[j]
  {
    if hooks != [] {
      MatchersAreDistinct(Init(hooks), e);
    }
  }

  lemma {:induction false} MatcherHasCommands(hooks: seq<HookDef>, e: HookEvent, m: string)
    ensures m in MatchersOf(hooks, e) <==> CommandsFor(hooks, e, m) != []
  {
    if hooks != [] {
      MatcherHasCommands(Init(hooks), e, m);
    }
  }

  lemma MergeDescribes(groups: seq<HookMatcherGroup>, hooks: seq<HookDef>, h: HookDef)
    requires Describes(groups, hooks, h.event)
    ensures Describes(Merged(groups, h.matcher, h.command), hooks + [h], h.event)
  {
    var e, m := h.event, h.matcher;
    var hooks' := hooks + [h];
    assert Init(hooks') == hooks && Last(hooks') == h;
    var before := MatchersOf(hooks, e);
    var k := Find(groups, m);
    MatchersAreDistinct(hooks, e);
    if k < |groups| {
      assert before[k] == m;
      assert MatchersOf(hooks', e) == before;
    } else {
      assert m !in before;
      MatcherHasCommands(hooks, e, m);
      assert MatchersOf(hooks', e) == before + [m];
      assert CommandsFor(hooks', e, m) == [] + [h.command];
    }
  }

  lemma OtherEventUnchanged(groups: seq<HookMatcherGroup>, hooks: seq<HookDef>, h: HookDef, e: HookEvent)
    requires Describes(groups, hooks, e) && e != h.event
    ensures Describes(groups, hooks + [h], e)
  {
    var hooks' := hooks + [h];
    assert Init(hooks') == hooks && Last(hooks') == h;
    forall m ensures CommandsFor(hooks', e, m) == CommandsFor(hooks, e, m) {
      assert CommandsFor(hooks, e, m) + [] == CommandsFor(hooks, e, m);
    }
  }

  /** `hooks_to_settings_tree`: the loop that groups by event, then by matcher. */
  method HooksToSettingsTree(hooks: seq<HookDef>) returns (tree: SettingsTree)
    ensures forall e :: Describes(GroupsOf(tree, e), hooks, e)
    ensures forall e :: e in tree <==> exists h :: h in hooks && h.event == e
  {
    tree := map[];
    for i := 0 to |hooks|
      invariant forall e :: Describes(GroupsOf(tree, e), hooks[..i], e)
      invariant forall e :: e in tree <==> exists h :: h in hooks[..i] && h.event == e
    {
      var h := hooks[i];
      ghost var done := hooks[..i];
      var groups := GroupsOf(tree, h.event);
      ghost var was := tree;
      tree := tree[h.event := Merged(groups, h.matcher, h.command)];
      assert hooks[..i + 1] == done + [h];
      forall e ensures Describes(GroupsOf(tree, e), hooks[..i + 1], e) {
        if e == h.event {
          MergeDescribes(groups, done, h);
        } else {
          OtherEventUnchanged(GroupsOf(was, e), done, h, e);
        }
      }
    }
    assert hooks[..|hooks|] == hooks;
  }

  // ----- The whole pipeline ---------------------------------------------------------------------

  /** The clean commands of one event and matcher that pass a gate, read straight off the raw contributions. */
  function AllowedCommands(gate: HookDef -> bool, raw: seq<HookDef>, e: HookEvent, m: string): seq<string> {
    if raw == [] then []
    else
      var h := Last(raw);
      AllowedCommands(gate, Init(raw), e, m)
      + if Clean(h) && gate(h) && h.event == e && h.matcher == m then [h.command] else []
  }

  lemma {:induction false} PipelineSelects(gate: HookDef -> bool, raw: seq<HookDef>, e: HookEvent, m: string)
    ensures CommandsFor(Keep(ValidHooks(raw), gate), e, m) == AllowedCommands(gate, raw, e, m)
  {
    if raw != [] {
      PipelineSelects(gate, Init(raw), e, m);
      var before := ValidHooks(Init(raw));
      var h := Last(raw);
      if Clean(h) {
        KeepPush(before, h, gate);
        if gate(h) {
          CommandsPush(Keep(before, gate), h, e, m);
        }
      } else {
        assert ValidHooks(raw) == before;
      }
    }
  }

  /** Gates that agree on the contributions let the same commands through. */
  lemma {:induction false} GatesThatAgree(p: HookDef -> bool, q: HookDef -> bool, raw: seq<HookDef>, e: HookEvent, m: string)
    requires forall h :: h in raw ==> p(h) == q(h)
    ensures AllowedCommands(p, raw, e, m) == AllowedCommands(q, raw, e, m)
  {
    if raw != [] {
      assert Last(raw) in raw && forall h :: h in Init(raw) ==> h in raw;
      GatesThatAgree(p, q, Init(raw), e, m);
    }
  }

  lemma KeepPush(hooks: seq<HookDef>, h: HookDef, p: HookDef -> bool)
    ensures Keep(hooks + [h], p) == if p(h) then Keep(hooks, p) + [h] else Keep(hooks, p)
  {
    assert Init(hooks + [h]) == hooks;
  }

  lemma CommandsPush(hooks: seq<HookDef>, h: HookDef, e: HookEvent, m: string)
    ensures CommandsFor(hooks + [h], e, m) ==
            CommandsFor(hooks, e, m) + if h.event == e && h.matcher == m then [h.command] else []
  {
    assert Init(hooks + [h]) == hooks;
  }

  /**
   After every run of registrations and approvals, composing and folding yields for each event and
   matcher exactly the clean, approved commands of the standing providers, in order and with
   multiplicity, under one group per matcher.
   */
  lemma SettingsListExactlyTheAllowed(
    c: Codec, approvals: Approvals, ops: seq<RegistryOp>, tree: SettingsTree, e: HookEvent, m: string)
    requires forall v :: Describes(GroupsOf(tree, v), ComposeHooks(c, approvals, Providers(ops)), v)
    ensures
      var groups := GroupsOf(tree, e);
      var allowed := AllowedCommands(Gate(c, approvals), Contributions(Providers(ops)), e, m);
      && (forall i, j :: 0 <= i < j < |groups| ==> groups[i].matcher != groups[j].matcher)
      && (allowed == [] <==> forall i :: 0 <= i < |groups| ==> groups[i].matcher != m)
      && (forall i :: 0 <= i < |groups| && groups[i].matcher == m ==> groups[i].commands == allowed)
  {
    var hooks := ComposeHooks(c, approvals, Providers(ops));
    PipelineSelects(Gate(c, approvals), Contributions(Providers(ops)), e, m);
    MatchersAreDistinct(hooks, e);
    MatcherHasCommands(hooks, e, m);
    assert Describes(GroupsOf(tree, e), hooks, e);
    if m in MatchersOf(hooks, e) {
      var i :| 0 <= i < |MatchersOf(hooks, e)| && MatchersOf(hooks, e)[i] == m;
      assert GroupsOf(tree, e)[i].matcher == m;
    }
  }

  lemma {:induction false} CommandsComeFromHooks(hooks: seq<HookDef>, e: HookEvent, m: string, k: nat)
    requires k < |CommandsFor(hooks, e, m)|
    ensures exists h :: h in hooks && h.event == e && h.matcher == m && h.command == CommandsFor(hooks, e, m)[k]
  {
    var before := CommandsFor(Init(hooks), e, m);
    if k < |before| {
      CommandsComeFromHooks(Init(hooks), e, m, k);
      var h :| h in Init(hooks) && h.event == e && h.matcher == m && h.command == before[k];
      assert h in hooks;
    } else {
      assert Last(hooks) in hooks;
    }
  }

  /**
   Nothing disguised reaches the settings tree: whatever was registered and approved, no matcher and no
   command in it holds a control character other than tab or a format character.
   */
  lemma TreeHidesNothing(
    c: Codec, approvals: Approvals, ops: seq<RegistryOp>, tree: SettingsTree, e: HookEvent, i: nat, k: nat)
    requires forall v :: Describes(GroupsOf(tree, v), ComposeHooks(c, approvals, Providers(ops)), v)
    requires i < |GroupsOf(tree, e)| && k < |GroupsOf(tree, e)[i].commands|
    ensures NothingHidden(GroupsOf(tree, e)[i].matcher) && NothingHidden(GroupsOf(tree, e)[i].commands[k])
  {
    var hooks := ComposeHooks(c, approvals, Providers(ops));
    var m := GroupsOf(tree, e)[i].matcher;
    assert Describes(GroupsOf(tree, e), hooks, e);
    CommandsComeFromHooks(hooks, e, m, k);
    var h :| h in hooks && h.event == e && h.matcher == m && h.command == CommandsFor(hooks, e, m)[k];
    KeepHas(AllHooks(Providers(ops)), Gate(c, approvals), h);
    SurvivesIffNothingHidden(Contributions(Providers(ops)), h);
  }

  /** Contributions come provider by provider, in the registry's order. */
  lemma ContributionsInOrder(a: seq<Provider>, b: seq<Provider>, p: Provider)
    ensures Contributions(a + b) == Contributions(a) + Contributions(b)
    ensures Contributions([]) == [] && Contributions([p]) == p.hooks
  {
    FlatMapConcat((q: Provider) => q.hooks, a, b);
    FlatMapOne((q: Provider) => q.hooks, p);
  }

  /** Where a matcher of an event first appears. */
  ghost predicate FirstAt(hooks: seq<HookDef>, e: HookEvent, m: string, i: nat) {
    && i < |hooks| && hooks[i].event == e && hooks[i].matcher == m
    && forall j :: 0 <= j < i ==> !(hooks[j].event == e && hooks[j].matcher == m)
  }

  lemma {:induction false} MatcherAppears(hooks: seq<HookDef>, e: HookEvent, m: string)
    ensures m in MatchersOf(hooks, e) <==> exists i :: 0 <= i < |hooks| && hooks[i].event == e && hooks[i].matcher == m
  {
    if hooks != [] {
      var n := |hooks| - 1;
      MatcherAppears(Init(hooks), e, m);
      assert hooks[n] == Last(hooks) && forall i :: 0 <= i < n ==> hooks[i] == Init(hooks)[i];
    }
  }

  /** The groups of an event stand in the order in which their matchers first appear. */
  lemma {:induction false} MatchersInOrder(hooks: seq<HookDef>, e: HookEvent, i: nat, j: nat, a: nat, b: nat)
    requires i < j < |MatchersOf(hooks, e)|
    requires FirstAt(hooks, e, MatchersOf(hooks, e)[i], a) && FirstAt(hooks, e, MatchersOf(hooks, e)[j], b)
    ensures a < b
  {
    var n := |hooks| - 1;
    var before := MatchersOf(Init(hooks), e);
    MatchersAreDistinct(hooks, e);
    assert forall k :: 0 <= k < n ==> hooks[k] == Init(hooks)[k];
    if j < |before| {
      MatcherAppears(Init(hooks), e, before[i]);
      MatcherAppears(Init(hooks), e, before[j]);
      MatchersInOrder(Init(hooks), e, i, j, a, b);
    } else {
      MatcherAppears(Init(hooks), e, before[i]);
      MatcherAppears(Init(hooks), e, Last(hooks).matcher);
    }
  }

  /** What an approval of a hook records. */
  function ApprovalOf(c: Codec): HookDef -> (string, string) {
    (h: HookDef) => (h.origin, HookHash(c, h))
  }

  /** The approvals left by approving the hooks of `seen` one after another. */
  function Granted(approval: HookDef -> (string, string), seen: seq<HookDef>): Approvals {
    if seen == [] then {} else Granted(approval, Init(seen)) + {approval(Last(seen))}
  }

  lemma {:induction false} GrantedHas(approval: HookDef -> (string, string), seen: seq<HookDef>, h: HookDef)
    requires forall g :: g in seen && approval(g) == approval(h) ==> g == h
    ensures approval(h) in Granted(approval, seen) <==> h in seen
  {
    if seen != [] {
      assert Last(seen) in seen && forall g :: g in seen <==> g in Init(seen) || g == Last(seen);
      GrantedHas(approval, Init(seen), h);
    }
  }

  /**
   A hook passes the gate exactly when that very hook, with its origin, event, matcher and command,
   has been approved: a changed field means a new approval.
   */
  lemma ApprovedIffSeen(c: Codec, seen: seq<HookDef>, h: HookDef)
    requires Injective(c.utf8) && Injective(c.sha) && Encodable(c, h)
    requires forall g :: g in seen ==> Encodable(c, g)
    ensures IsApproved(c, Granted(ApprovalOf(c), seen), h) <==> h in seen
  {
    forall g | g in seen && ApprovalOf(c)(g) == ApprovalOf(c)(h) ensures g == h {
      PreHashIsInjective(c, h, g);
    }
    GrantedHas(ApprovalOf(c), seen, h);
  }

  // ----- One run of everything ----------------------------------------------------------------------

  /** What can happen: a provider comes or goes, or the operator approves a hook that was shown. */
  datatype HookOp = Registry(op: RegistryOp) | Approve(shown: HookDef, io: ApproveIo)

  function RegistryPart(ops: seq<HookOp>): seq<RegistryOp> {
    if ops == [] then []
    else RegistryPart(Init(ops)) + if Last(ops).Registry? then [Last(ops).op] else []
  }

  /** The hooks whose approval completed. */
  function ApprovedIn(ops: seq<HookOp>): seq<HookDef> {
    if ops == [] then []
    else ApprovedIn(Init(ops)) + if Last(ops).Approve? && Last(ops).io.Completes? then [Last(ops).shown] else []
  }

  /** The approval file after a run that found `file`. */
  function FileAfter(approval: HookDef -> (string, string), file: ApprovalFile, ops: seq<HookOp>): ApprovalFile {
    if ops == [] then file
    else
      var was := FileAfter(approval, file, Init(ops));
      match Last(ops)
      case Registry(_) => was
      case Approve(h, io) => FileAfterApprove(was, approval(h).0, approval(h).1, io)
  }

  /** What is loaded after any run is what was loaded before and the approvals that completed. */
  lemma {:induction false} FileHoldsTheApprovals(approval: HookDef -> (string, string), file: ApprovalFile, ops: seq<HookOp>)
    ensures LoadApprovals(FileAfter(approval, file, ops)) == LoadApprovals(file) + Granted(approval, ApprovedIn(ops))
  {
    if ops != [] {
      FileHoldsTheApprovals(approval, file, Init(ops));
      if Last(ops).Approve? && Last(ops).io.Completes? {
        assert Init(ApprovedIn(ops)) == ApprovedIn(Init(ops));
      } else {
        assert ApprovedIn(ops) == ApprovedIn(Init(ops));
      }
    }
  }

  /** The gate that passes exactly the listed hooks. */
  function Among(approved: seq<HookDef>): HookDef -> bool {
    (h: HookDef) => h in approved
  }

  lemma GateIsAmong(c: Codec, approved: seq<HookDef>, raw: seq<HookDef>, e: HookEvent, m: string)
    requires Injective(c.utf8) && Injective(c.sha)
    requires forall h :: h in approved + raw ==> Encodable(c, h)
    ensures AllowedCommands(Gate(c, Granted(ApprovalOf(c), approved)), raw, e, m) ==
            AllowedCommands(Among(approved), raw, e, m)
  {
    forall h | h in raw ensures Gate(c, Granted(ApprovalOf(c), approved))(h) == Among(approved)(h) {
      assert h in approved + raw && forall g :: g in approved ==> g in approved + raw;
      ApprovedIffSeen(c, approved, h);
    }
    GatesThatAgree(Gate(c, Granted(ApprovalOf(c), approved)), Among(approved), raw, e, m);
  }

  /**
   The whole pipeline. After any run of registrations, deregistrations and approvals, completed or not,
   starting without a usable approval file, the settings tree lists for each event and matcher exactly
   the clean commands of the standing providers whose very hooks were approved.
   */
  lemma SettingsListExactlyTheApproved(c: Codec, file: ApprovalFile, ops: seq<HookOp>, tree: SettingsTree, e: HookEvent, m: string)
    requires !file.Decodes? && Injective(c.utf8) && Injective(c.sha)
    requires forall h :: h in ApprovedIn(ops) + Contributions(Providers(RegistryPart(ops))) ==> Encodable(c, h)
    requires
      var approvals := LoadApprovals(FileAfter(ApprovalOf(c), file, ops));
      forall v :: Describes(GroupsOf(tree, v), ComposeHooks(c, approvals, Providers(RegistryPart(ops))), v)
    ensures
      var groups := GroupsOf(tree, e);
      var chosen := AllowedCommands(Among(ApprovedIn(ops)), Contributions(Providers(RegistryPart(ops))), e, m);
      && (forall i, j :: 0 <= i < j < |groups| ==> groups[i].matcher != groups[j].matcher)
      && (chosen == [] <==> forall i :: 0 <= i < |groups| ==> groups[i].matcher != m)
      && (forall i :: 0 <= i < |groups| && groups[i].matcher == m ==> groups[i].commands == chosen)
  {
    var approved := ApprovedIn(ops);
    FileHoldsTheApprovals(ApprovalOf(c), file, ops);
    assert {} + Granted(ApprovalOf(c), approved) == Granted(ApprovalOf(c), approved);
    GateIsAmong(c, approved, Contributions(Providers(RegistryPart(ops))), e, m);
    SettingsListExactlyTheAllowed(c, Granted(ApprovalOf(c), approved), RegistryPart(ops), tree, e, m);
  }
}
