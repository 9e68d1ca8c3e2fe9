/**
 * The status schema of robovac-api.ts: the fixed table of data-point keys
 * (`StatusDps`), their friendly names, the values the device reports, the
 * status record, and the serialiser `formatStatusResponse`.
 */
module Schema {
  import opened Wrappers

  /** The data-point keys, in declaration order. */
  datatype StatusDps =
    | Default | Running | Direction | WorkMode | WorkStatus
    | GoHome | CleanSpeed | FindRobot | BatteryLevel | ErrorCode

  /** The string value each key has on the wire. */
  function Code(k: StatusDps): string {
    match k
    case Default => "1"
    case Running => "2"
    case Direction => "3"
    case WorkMode => "5"
    case WorkStatus => "15"
    case GoHome => "101"
    case CleanSpeed => "102"
    case FindRobot => "103"
    case BatteryLevel => "104"
    case ErrorCode => "106"
  }

  /** The key whose wire value is `c`, if there is one. */
  function ParseDps(c: string): (r: Option<StatusDps>)
    ensures r.Some? ==> Code(r.value) == c
    ensures r.None? ==> forall k :: Code(k) != c
  {
    if c == "1" then Some(Default)
    else if c == "2" then Some(Running)
    else if c == "3" then Some(Direction)
    else if c == "5" then Some(WorkMode)
    else if c == "15" then Some(WorkStatus)
    else if c == "101" then Some(GoHome)
    else if c == "102" then Some(CleanSpeed)
    else if c == "103" then Some(FindRobot)
    else if c == "104" then Some(BatteryLevel)
    else if c == "106" then Some(ErrorCode)
    else None
  }

  /** Decoding a key's wire value gives the key back, so no two keys share a wire value. */
  lemma CodeRoundTrip(k: StatusDps)
    ensures ParseDps(Code(k)) == Some(k)
  {
  }

  /** `statusDpsFriendlyNames`: a map from wire values to display names. */
  const StatusDpsFriendlyNames: map<string, string> := map[
    "1" := "Default Property (ignore)",
    "2" := "Running",
    "3" := "Direction",
    "5" := "Work Mode",
    "15" := "Work Status",
    "101" := "Go Home",
    "102" := "Clean Speed",
    "103" := "Find Robot",
    "104" := "Battery Level",
    "106" := "Error Code"]

  /** `statusDpsFriendlyNames.get(k)`: every key has an entry, so the lookup never yields `undefined`. */
  function FriendlyName(k: StatusDps): (name: string)
    ensures Code(k) in StatusDpsFriendlyNames && StatusDpsFriendlyNames[Code(k)] == name
  {
    match k
    case Default => "Default Property (ignore)"
    case Running => "Running"
    case Direction => "Direction"
    case WorkMode => "Work Mode"
    case WorkStatus => "Work Status"
    case GoHome => "Go Home"
    case CleanSpeed => "Clean Speed"
    case FindRobot => "Find Robot"
    case BatteryLevel => "Battery Level"
    case ErrorCode => "Error Code"
  }

  /** The friendly-name map has an entry for exactly the ten wire values, and no two keys share a name. */
  lemma FriendlyNamesTable()
    ensures forall c :: c in StatusDpsFriendlyNames <==> ParseDps(c).Some?
    ensures forall k1, k2 :: FriendlyName(k1) == FriendlyName(k2) ==> k1 == k2
  {
  }

  /** `Object.values(StatusDps)`: every key once, in declaration order. */
  const AllDps: seq<StatusDps> :=
    [Default, Running, Direction, WorkMode, WorkStatus, GoHome, CleanSpeed, FindRobot, BatteryLevel, ErrorCode]

  /** The declaration position of a key. */
  function Index(k: StatusDps): (i: nat)
    ensures i < |AllDps|
  {
    match k
    case Default => 0
    case Running => 1
    case Direction => 2
    case WorkMode => 3
    case WorkStatus => 4
    case GoHome => 5
    case CleanSpeed => 6
    case FindRobot => 7
    case BatteryLevel => 8
    case ErrorCode => 9
  }

  /** A value the device reports for a data point. */
  datatype DpsValue = Bool(b: bool) | Str(s: string) | Num(n: int) | Null

  /** The result of reading a property of a JavaScript object. */
  datatype Lookup = Undefined | Defined(value: DpsValue)

  /**
   * A status object: `devId` and the `dps` object, keyed by wire value.
   * `StatusResponse` and `RobovacStatus` share this shape; the latter
   * additionally promises every key (see `IsRobovacStatus`).
   */
  datatype StatusResponse = StatusResponse(devId: string, dps: map<string, DpsValue>)

  /** `status.dps[k]`. */
  function Project(status: StatusResponse, k: StatusDps): (r: Lookup)
    ensures r.Defined? <==> Code(k) in status.dps
    ensures r.Defined? ==> r.value == status.dps[Code(k)]
  {
    if Code(k) in status.dps then Defined(status.dps[Code(k)]) else Undefined
  }

  /** The declared type of each key's value in `RobovacStatus`. */
  predicate Fits(k: StatusDps, v: DpsValue) {
    match k
    case Default | Running | GoHome | FindRobot => v.Bool?
    case BatteryLevel => v.Num?
    case Direction | WorkMode | WorkStatus | CleanSpeed | ErrorCode => v.Str?
  }

  /** The `RobovacStatus` interface: every key present, with its declared type. */
  predicate IsRobovacStatus(s: StatusResponse) {
    forall k :: Code(k) in s.dps && Fits(k, s.dps[Code(k)])
  }

  /** The defaults the cache starts with. */
  const DefaultStatus: StatusResponse :=
    StatusResponse("default - invalid", map[
      "1" := Bool(false),
      "2" := Bool(false),
      "3" := Str("forward"),
      "5" := Str("Nosweep"),
      "15" := Str("Charging"),
      "101" := Bool(false),
      "102" := Str("No_suction"),
      "103" := Bool(false),
      "104" := Num(-1),
      "106" := Str("default - invalid")])

  /** The defaults form a complete, well-typed status, with the battery level at -1. */
  lemma DefaultStatusComplete()
    ensures IsRobovacStatus(DefaultStatus)
    ensures Project(DefaultStatus, BatteryLevel) == Defined(Num(-1))
    ensures Project(DefaultStatus, WorkStatus) == Defined(Str("Charging"))
    ensures DefaultStatus.devId == "default - invalid"
  {
    forall k ensures Code(k) in DefaultStatus.dps && Fits(k, DefaultStatus.dps[Code(k)]) {
      match k
      case Default =>
      case Running =>
      case Direction =>
      case WorkMode =>
      case WorkStatus =>
      case GoHome =>
      case CleanSpeed =>
      case FindRobot =>
      case BatteryLevel =>
      case ErrorCode =>
    }
  }

  // ---------------------------------------------------------------------------
  // Rendering values as a template literal does

  function DigitChar(d: nat): char
    requires d < 10
  {
    "0123456789"[d]
  }

  /** The number a string of decimal digits denotes, most significant first. */
  function DecimalValue(s: string): nat
    requires forall i :: 0 <= i < |s| ==> '0' <= s[i] <= '9'
    decreases |s|
  {
    if s == [] then 0 else 10 * DecimalValue(s[..|s| - 1]) + ((s[|s| - 1] as int) - ('0' as int))
  }

  /** Decimal digits of a natural number, most significant first, without leading zeros. */
  function NatText(n: nat): (r: string)
    ensures |r| >= 1
    ensures forall i :: 0 <= i < |r| ==> '0' <= r[i] <= '9'
    ensures |r| > 1 ==> r[0] != '0'
    ensures DecimalValue(r) == n
    decreases n
  {
    if n < 10 then [DigitChar(n)]
    else
      var r := NatText(n / 10) + [DigitChar(n % 10)];
      assert r[..|r| - 1] == NatText(n / 10);
      r
  }

  /** `r` is `n` in decimal: a minus sign exactly for negatives, then the digits of the magnitude with no leading zero. */
  predicate SignedDecimal(r: string, n: int) {
    |r| >= 1 && (r[0] == '-' <==> n < 0) &&
    var digits := if n < 0 then r[1..] else r;
    |digits| >= 1 && (|digits| > 1 ==> digits[0] != '0') &&
    (forall i :: 0 <= i < |digits| ==> '0' <= digits[i] <= '9') &&
    DecimalValue(digits) == if n < 0 then -n else n
  }

  /** `${n}` for an integer. */
  function IntText(n: int): (r: string)
    ensures SignedDecimal(r, n)
  {
    if n < 0 then
      var r := "-" + NatText(-n);
      assert r[1..] == NatText(-n);
      r
    else NatText(n)
  }

  /** `${v}` for the values a status record holds. */
  function ValueText(v: DpsValue): string {
    match v
    case Bool(b) => if b then "true" else "false"
    case Str(s) => s
    case Num(n) => IntText(n)
    case Null => "null"
  }

  /** How a template literal renders each kind of value: booleans and `null` by name, strings as they are, integers in decimal. */
  lemma ValueTextRendering(v: DpsValue)
    ensures v.Bool? ==> ValueText(v) == if v.b then "true" else "false"
    ensures v.Str? ==> ValueText(v) == v.s
    ensures v.Null? ==> ValueText(v) == "null"
    ensures v.Num? ==> SignedDecimal(ValueText(v), v.n)
  {
  }

  // ---------------------------------------------------------------------------
  // formatStatusResponse

  const Header: string := "-- Status Start --\n"
  const Footer: string := "-- Status End --"

  /** The line printed for a key that is present with value `v`. */
  function Line(k: StatusDps, v: DpsValue): string {
    "- " + FriendlyName(k) + ": " + ValueText(v) + "\n"
  }

  /** What one step of the loop appends: the key's line, or nothing if the key is absent. */
  function LineFor(k: StatusDps, dps: map<string, DpsValue>): string {
    if Code(k) in dps then Line(k, dps[Code(k)]) else ""
  }

  /** What the loop appends over `keys`, in order. */
  function Lines(keys: seq<StatusDps>, dps: map<string, DpsValue>): string
    decreases |keys|
  {
    if keys == [] then "" else LineFor(keys[0], dps) + Lines(keys[1..], dps)
  }

  /** The string `formatStatusResponse` returns for a `dps` object. */
  function FormatStatus(dps: map<string, DpsValue>): string {
    Header + Lines(AllDps, dps) + Footer
  }

  lemma {:induction false} LinesSnoc(keys: seq<StatusDps>, k: StatusDps, dps: map<string, DpsValue>)
    ensures Lines(keys + [k], dps) == Lines(keys, dps) + LineFor(k, dps)
    decreases |keys|
  {
    if keys == [] {
      assert [k][1..] == [];
    } else {
      var rest := keys[1..];
      assert (keys + [k])[0] == keys[0];
      assert (keys + [k])[1..] == rest + [k];
      LinesSnoc(rest, k, dps);
      AppendAssoc(LineFor(keys[0], dps), Lines(rest, dps), LineFor(k, dps));
    }
  }

  /** `formatStatusResponse`, as the source writes it: a loop appending to a string. */
  method FormatStatusResponse(statusResponse: StatusResponse) returns (formatted: string)
    ensures formatted == FormatStatus(statusResponse.dps)
  {
    var keys, header := AllDps, Header;
    formatted := header;
    for i := 0 to |keys|
      invariant formatted == header + Lines(keys[..i], statusResponse.dps)
    {
      var dps := keys[i];
      if Code(dps) in statusResponse.dps {
        formatted := formatted + Line(dps, statusResponse.dps[Code(dps)]);
      }
      assert keys[..i + 1] == keys[..i] + [dps];
      LinesSnoc(keys[..i], dps, statusResponse.dps);
      AppendAssoc(header, Lines(keys[..i], statusResponse.dps), LineFor(dps, statusResponse.dps));
    }
    assert keys[..|keys|] == keys;
    formatted := formatted + Footer;
  }

  /** Keys listed strictly in declaration order (so each at most once). */
  predicate InDeclarationOrder(keys: seq<StatusDps>) {
    forall i, j :: 0 <= i < j < |keys| ==> Index(keys[i]) < Index(keys[j])
  }

  /** The keys of `keys` that `dps` has, in the order of `keys`. */
  function Present(keys: seq<StatusDps>, dps: map<string, DpsValue>): (r: seq<StatusDps>)
    ensures forall k :: k in r <==> k in keys && Code(k) in dps
    ensures InDeclarationOrder(keys) ==> InDeclarationOrder(r)
    decreases |keys|
  {
    if keys == [] then []
    else
      var rest := Present(keys[1..], dps);
      assert forall k :: k in keys[1..] ==> k in keys;
      if Code(keys[0]) in dps then
        PresentHeadOrdered(keys, rest);
        [keys[0]] + rest
      else rest
  }

  /** Keeping the head of an ordered key list in front of a selection of its tail keeps the order. */
  lemma PresentHeadOrdered(keys: seq<StatusDps>, rest: seq<StatusDps>)
    requires |keys| > 0
    requires InDeclarationOrder(keys) ==> InDeclarationOrder(rest)
    requires forall k :: k in rest ==> k in keys[1..]
    ensures InDeclarationOrder(keys) ==> InDeclarationOrder([keys[0]] + rest)
  {
    if InDeclarationOrder(keys) {
      OrderedTail(keys);
      ConsOrdered(keys[0], rest);
    }
  }

  /** The tail of an ordered key list is ordered, and its head comes before every key in it. */
  lemma OrderedTail(keys: seq<StatusDps>)
    requires |keys| > 0 && InDeclarationOrder(keys)
    ensures InDeclarationOrder(keys[1..])
    ensures forall k :: k in keys[1..] ==> Index(keys[0]) < Index(k)
  {
    forall k | k in keys[1..]
      ensures Index(keys[0]) < Index(k)
    {
      var j :| 0 <= j < |keys[1..]| && keys[1..][j] == k;
      assert keys[j + 1] == k;
    }
  }

  /** A key placed before an ordered list of later keys keeps the list ordered. */
  lemma ConsOrdered(k: StatusDps, rest: seq<StatusDps>)
    requires InDeclarationOrder(rest)
    requires forall x :: x in rest ==> Index(k) < Index(x)
    ensures InDeclarationOrder([k] + rest)
  {
    var r := [k] + rest;
    forall i, j | 0 <= i < j < |r|
      ensures Index(r[i]) < Index(r[j])
    {
      assert r[j] == rest[j - 1];
      if i > 0 {
        assert r[i] == rest[i - 1];
      } else {
        assert rest[j - 1] in rest;
      }
    }
  }

  /** Concatenation of the lines of `keys`, every one of which is present. */
  function Join(keys: seq<StatusDps>, dps: map<string, DpsValue>): string
    requires forall k :: k in keys ==> Code(k) in dps
    decreases |keys|
  {
    if keys == [] then "" else Line(keys[0], dps[Code(keys[0])]) + Join(keys[1..], dps)
  }

  lemma {:induction false} LinesArePresentLines(keys: seq<StatusDps>, dps: map<string, DpsValue>)
    ensures Lines(keys, dps) == Join(Present(keys, dps), dps)
    decreases |keys|
  {
    if keys != [] {
      LinesArePresentLines(keys[1..], dps);
      if Code(keys[0]) in dps {
        var p := Present(keys, dps);
        assert p[0] == keys[0] && p[1..] == Present(keys[1..], dps);
      }
    }
  }

  /** Every key is listed. */
  lemma AllDpsComplete()
    ensures forall k :: k in AllDps
  {
    forall k ensures k in AllDps {
      match k
      case Default =>
      case Running =>
      case Direction =>
      case WorkMode =>
      case WorkStatus =>
      case GoHome =>
      case CleanSpeed =>
      case FindRobot =>
      case BatteryLevel =>
      case ErrorCode =>
    }
  }

  lemma AllDpsOrdered()
    ensures InDeclarationOrder(AllDps)
  {
    forall i | 0 <= i < |AllDps| ensures Index(AllDps[i]) == i {
    }
  }

  /** The `StatusDps` keys `dps` holds, each once, in declaration order. */
  function PresentDps(dps: map<string, DpsValue>): (keys: seq<StatusDps>)
    ensures forall k :: k in keys <==> Code(k) in dps
    ensures InDeclarationOrder(keys)
  {
    AllDpsComplete();
    AllDpsOrdered();
    Present(AllDps, dps)
  }

  /**
   * The shape of the output: the header, then one complete line for each
   * key of `PresentDps(dps)` (so for each `StatusDps` key in `dps` and for no
   * other key, each once and in declaration order), then the footer.
   */
  lemma FormatStatusShape(dps: map<string, DpsValue>)
    ensures FormatStatus(dps) == Header + Join(PresentDps(dps), dps) + Footer
  {
    LinesArePresentLines(AllDps, dps);
  }

  /** The output begins with the header and ends with the footer. */
  lemma FormatStatusFrame(dps: map<string, DpsValue>)
    ensures var s := FormatStatus(dps);
      |s| >= |Header| + |Footer| && s[..|Header|] == Header && s[|s| - |Footer|..] == Footer
  {
    Framed(Header, Lines(AllDps, dps), Footer);
  }

  lemma AppendAssoc(a: string, b: string, c: string)
    ensures (a + b) + c == a + (b + c)
  {
  }

  lemma Framed(a: string, b: string, c: string)
    ensures var s := a + b + c;
      |s| >= |a| + |c| && s[..|a|] == a && s[|s| - |c|..] == c
  {
  }

  lemma {:induction false} LinesIgnoreForeign(keys: seq<StatusDps>, dps: map<string, DpsValue>, c: string, v: DpsValue)
    requires ParseDps(c).None?
    ensures Lines(keys, dps[c := v]) == Lines(keys, dps)
    decreases |keys|
  {
    if keys != [] {
      assert Code(keys[0]) != c;
      LinesIgnoreForeign(keys[1..], dps, c, v);
    }
  }

  /** A key outside the `StatusDps` table never changes the output. */
  lemma FormatIgnoresForeignKey(dps: map<string, DpsValue>, c: string, v: DpsValue)
    requires ParseDps(c).None?
    ensures FormatStatus(dps[c := v]) == FormatStatus(dps)
  {
    LinesIgnoreForeign(AllDps, dps, c, v);
  }

  lemma {:induction false} LinesWithoutKeys(keys: seq<StatusDps>, dps: map<string, DpsValue>)
    requires forall k :: k in keys ==> Code(k) !in dps
    ensures Lines(keys, dps) == ""
    decreases |keys|
  {
    if keys != [] {
      assert keys[0] in keys;
      assert forall k :: k in keys[1..] ==> k in keys;
      LinesWithoutKeys(keys[1..], dps);
    }
  }

  /** A `dps` object holding no `StatusDps` key (the empty one included) prints header and footer only. */
  lemma FormatStatusNoKnownKeys(dps: map<string, DpsValue>)
    requires forall c :: c in dps ==> ParseDps(c).None?
    ensures FormatStatus(dps) == Header + Footer
  {
    forall k | k in AllDps ensures Code(k) !in dps {
      CodeRoundTrip(k);
    }
    LinesWithoutKeys(AllDps, dps);
  }
}
