/** Slots and claims as values: internal/slot/slot.go and internal/claim/claim.go. */
module Slots {
  import opened Basics

  // ---------------------------------------------------------------- resources

  /** Cpus, memory in MB and disk in KB. */
  datatype Resources = Resources(cpus: int, memory: int, disk: int) {
    function Plus(o: Resources): Resources {
      Resources(cpus + o.cpus, memory + o.memory, disk + o.disk)
    }
    function Minus(o: Resources): Resources {
      Resources(cpus - o.cpus, memory - o.memory, disk - o.disk)
    }
    predicate AtMost(o: Resources) {
      cpus <= o.cpus && memory <= o.memory && disk <= o.disk
    }
    function Min(o: Resources): Resources {
      Resources(if cpus > o.cpus then o.cpus else cpus,
                if memory > o.memory then o.memory else memory,
                if disk > o.disk then o.disk else disk)
    }
  }

  const NOTHING := Resources(0, 0, 0)

  // -------------------------------------------------------------------- names

  /** "slotN@host" for a configured slot, "slotN_M@host" for a dynamic one. */
  datatype SlotName = Configured(slotId: nat) | Dynamic(slotId: nat, subId: int)

  datatype SlotKind = Static | Partitionable | CarvedFrom(parent: SlotName, subId: int)

  // ------------------------------------------------------------------- claims

  /**
   * A claim id. The minter builds one from the startd's birthdate and a sequence
   * number; anything else a client may present, the empty string included, is Foreign.
   */
  datatype ClaimId = Minted(birthdate: int, serial: nat) | Foreign(text: string)

  const NO_CLAIM_ID := Foreign("")

  datatype ClaimState = NotClaimed | ClaimedIdle | ClaimedBusy

  datatype Schedd = Schedd(addr: string, name: string, user: string, machine: string, aliveInterval: int)

  const NO_SCHEDD := Schedd("", "", "", "", 0)

  datatype FinalReport = FinalReport(ad: string, status: int, reason: int)

  datatype Claim = Claim(id: ClaimId, state: ClaimState, schedd: Schedd, lease: int, entered: int,
                         update: string, final: Option<FinalReport>) {
    predicate IsClaimed() { state != NotClaimed }
  }

  /** Minter.Mint: a fresh claim nobody holds yet. */
  function MintClaim(id: ClaimId): Claim {
    Claim(id, NotClaimed, NO_SCHEDD, 0, 0, "", None)
  }

  function LeaseSeconds(aliveInterval: int, alivesMissed: int): int {
    (if alivesMissed <= 0 then 6 else alivesMissed) * (if aliveInterval <= 0 then 1 else aliveInterval)
  }

  // -------------------------------------------------------------------- slots

  datatype SlotState = Unclaimed | Matched | Claimed
  datatype Activity = Idle | Busy

  datatype Slot = Slot(kind: SlotKind, res: Resources, full: Resources,
                       state: SlotState, activity: Activity, entered: int,
                       claim: Option<Claim>, children: seq<ClaimId>) {

    predicate IsDynamic() { kind.CarvedFrom? }

    predicate Holds(id: ClaimId) { claim.Some? && claim.value.id == id }

    predicate HasClaimed() { claim.Some? && claim.value.IsClaimed() }

    predicate CanCarve(req: Resources) { req.AtMost(res) }

    function Carve(req: Resources): Slot { this.(res := res.Minus(req)) }

    /** Gives req back, clamped at the slot's full allocation. */
    function Restore(req: Resources): Slot { this.(res := res.Plus(req).Min(full)) }

    function SetStateActivity(st: SlotState, act: Activity, now: int): Slot {
      this.(state := st, activity := act, entered := now)
    }

    function SetClaimState(cl: Claim, st: SlotState, act: Activity, now: int): Slot {
      this.(claim := Some(cl)).SetStateActivity(st, act, now)
    }

    /** AcceptClaim: the claim moves to Claimed/Idle together with the slot. */
    function AcceptClaim(schedd: Schedd, alivesMissed: int, now: int): Slot
      requires claim.Some?
    {
      SetClaimState(claim.value.(state := ClaimedIdle, schedd := schedd, entered := now,
                                 lease := now + LeaseSeconds(schedd.aliveInterval, alivesMissed)),
                    Claimed, Idle, now)
    }

    function SetBusy(now: int): Slot
      requires claim.Some?
    {
      SetClaimState(claim.value.(state := ClaimedBusy, entered := now), Claimed, Busy, now)
    }

    function SetIdle(now: int): Slot
      requires claim.Some?
    {
      SetClaimState(claim.value.(state := ClaimedIdle, entered := now), Claimed, Idle, now)
    }
  }

  /** A configured slot as the configuration builds it. */
  function ConfiguredSlot(kind: SlotKind, share: Resources, now: int): Slot {
    Slot(kind, share, share, Unclaimed, Idle, now, None, [])
  }

  /** NewDynamicSlot: not yet claimed, owning exactly res. */
  function NewDynamicSlot(parent: SlotName, subId: int, res: Resources, now: int): Slot {
    Slot(CarvedFrom(parent, subId), res, res, Unclaimed, Idle, now, None, [])
  }

  function DynamicName(parent: SlotName, subId: int): SlotName { Dynamic(parent.slotId, subId) }

  // ------------------------------------------------------- rendering of names

  function Digits(n: nat): string {
    if n < 10 then [Digit(n)] else Digits(n / 10) + [Digit(n % 10)]
  }

  function Digit(d: nat): char
    requires d < 10
  {
    "0123456789"[d]
  }

  function Decimal(n: int): string { if n < 0 then "-" + Digits(-n) else Digits(n) }

  /** The strings the startd really uses as slot names. */
  function Render(n: SlotName, host: string): string {
    match n
    case Configured(id) => "slot" + Digits(id) + "@" + host
    case Dynamic(id, sub) => "slot" + Digits(id) + "_" + Decimal(sub) + "@" + host
  }

  ghost predicate AllDigits(s: string) { forall i :: 0 <= i < |s| ==> s[i] in "0123456789" }

  lemma {:induction false} DigitsAreDigits(n: nat)
    ensures AllDigits(Digits(n)) && |Digits(n)| > 0
  {
    if n >= 10 { DigitsAreDigits(n / 10); }
  }

  lemma {:induction false} DigitsInjective(a: nat, b: nat)
    requires Digits(a) == Digits(b)
    ensures a == b
  {
    DigitsAreDigits(a / 10);
    DigitsAreDigits(b / 10);
    var s, t := Digits(a), Digits(b);
    assert a >= 10 ==> |s| == |Digits(a / 10)| + 1;
    assert b >= 10 ==> |t| == |Digits(b / 10)| + 1;
    assert s[|s| - 1] == Digit(a % 10) && t[|t| - 1] == Digit(b % 10);
    assert Digit(a % 10) == Digit(b % 10) ==> a % 10 == b % 10;
    if a >= 10 {
      assert Digits(a / 10) == s[..|s| - 1];
      assert Digits(b / 10) == t[..|t| - 1];
      DigitsInjective(a / 10, b / 10);
    }
  }

  lemma DecimalInjective(a: int, b: int)
    requires Decimal(a) == Decimal(b)
    ensures a == b
  {
    var x: nat := if a < 0 then -a else a;
    var y: nat := if b < 0 then -b else b;
    DigitsAreDigits(x);
    DigitsAreDigits(y);
    assert a < 0 ==> Decimal(a)[0] == '-';
    assert b < 0 ==> Decimal(b)[0] == '-';
    assert Digits(x)[0] != '-' && Digits(y)[0] != '-';
    assert a < 0 ==> Decimal(a)[1..] == Digits(x);
    assert b < 0 ==> Decimal(b)[1..] == Digits(y);
    DigitsInjective(x, y);
  }

  /** Two digit strings, each followed by a character that is no digit, split the same way. */
  lemma {:induction false} SplitAtMark(a: string, b: string, u: string, v: string)
    requires AllDigits(a) && AllDigits(b)
    requires |u| > 0 && u[0] !in "0123456789" && |v| > 0 && v[0] !in "0123456789"
    requires a + u == b + v
    ensures a == b && u == v
  {
    if a == [] || b == [] {
      assert (a + u)[0] == (b + v)[0];
      assert a == [] && b == [];
      assert a + u == u && b + v == v;
    } else {
      assert (a + u)[0] == a[0] && (b + v)[0] == b[0];
      assert (a + u)[1..] == a[1..] + u && (b + v)[1..] == b[1..] + v;
      SplitAtMark(a[1..], b[1..], u, v);
      assert a == [a[0]] + a[1..] && b == [b[0]] + b[1..];
    }
  }

  /** What follows the slot number in a rendered name. */
  function NameTail(n: SlotName, host: string): string {
    if n.Configured? then "@" + host else "_" + Decimal(n.subId) + "@" + host
  }

  lemma TailInjective(m: SlotName, n: SlotName, host: string)
    requires m.slotId == n.slotId && NameTail(m, host) == NameTail(n, host)
    ensures m == n
  {
    hide Decimal;
    var s, t := NameTail(m, host), NameTail(n, host);
    assert s[0] == (if m.Configured? then '@' else '_') && t[0] == (if n.Configured? then '@' else '_');
    if m.Dynamic? {
      var d, e := Decimal(m.subId), Decimal(n.subId);
      var rest := "@" + host;
      assert s[1..] == d + rest && t[1..] == e + rest;
      SuffixCancels(d, e, rest);
      DecimalInjective(m.subId, n.subId);
    }
  }

  lemma SuffixCancels(d: string, e: string, rest: string)
    requires d + rest == e + rest
    ensures d == e
  {
    assert |d| == |e|;
    assert d == (d + rest)[..|d|] && e == (e + rest)[..|e|];
  }

  lemma RenderSplits(n: SlotName, host: string)
    ensures |Render(n, host)| >= 4
    ensures Render(n, host)[4..] == Digits(n.slotId) + NameTail(n, host)
  {
    assert Render(n, host) == "slot" + (Digits(n.slotId) + NameTail(n, host));
  }

  /** Distinct names render to distinct strings on one host. */
  lemma RenderInjective(m: SlotName, n: SlotName, host: string)
    ensures Render(m, host) == Render(n, host) <==> m == n
  {
    if Render(m, host) == Render(n, host) {
      RenderSplits(m, host);
      RenderSplits(n, host);
      DigitsAreDigits(m.slotId);
      DigitsAreDigits(n.slotId);
      SplitAtMark(Digits(m.slotId), Digits(n.slotId), NameTail(m, host), NameTail(n, host));
      DigitsInjective(m.slotId, n.slotId);
      TailInjective(m, n, host);
    }
  }
}
