/**
 * The feature engineering of the data preprocessor: the time-of-day
 * category of an hour and its encoding, the weekend flag, the dropping of
 * the signal-quality column, the priority-ordered normalisation of column
 * names, the forward-then-backward fill of a numeric column, and the
 * temporal train/test split. Timestamps are seconds since 1970-01-01 00:00
 * UTC; a frame is modelled by its column names, one column of cells, or its
 * rows, as each step needs.
 */
module Preprocessing {
  import opened Wrappers
  import Text

  // ---------------------------------------------------------------------------
  // Temporal features
  // ---------------------------------------------------------------------------

  datatype TimeCategory = Morning | Afternoon | Evening | Night {
    function Name(): string
    {
      match this
      case Morning => "morning"
      case Afternoon => "afternoon"
      case Evening => "evening"
      case Night => "night"
    }
  }

  /** `get_time_category`: morning from 5, afternoon from 12, evening from 17, night from 22 and before 5. */
  function TimeCategoryOf(hour: int): (c: TimeCategory)
    ensures c == Morning <==> 5 <= hour < 12
    ensures c == Afternoon <==> 12 <= hour < 17
    ensures c == Evening <==> 17 <= hour < 22
    ensures c == Night <==> hour < 5 || hour >= 22
  {
    if 5 <= hour < 12 then Morning
    else if 12 <= hour < 17 then Afternoon
    else if 17 <= hour < 22 then Evening
    else Night
  }

  /** `time_category_map` looked up by a name; `.map` leaves a name it lacks without a code. */
  function EncodeName(name: string): Option<nat>
  {
    if name == "morning" then Some(0)
    else if name == "afternoon" then Some(1)
    else if name == "evening" then Some(2)
    else if name == "night" then Some(3)
    else None
  }

  /** The code of a category, through its name. */
  function Encode(c: TimeCategory): (n: nat)
    ensures n < 4
  {
    match EncodeName(c.Name())
    case Some(n) => n
    case None => 0
  }

  /** The category a code stands for. */
  function Decode(n: nat): Option<TimeCategory>
  {
    if n == 0 then Some(Morning)
    else if n == 1 then Some(Afternoon)
    else if n == 2 then Some(Evening)
    else if n == 3 then Some(Night)
    else None
  }

  /**
   * Every category's name has a code, and the encoding is a bijection onto
   * 0..3: decoding inverts it, and every code below 4 is some category's.
   */
  lemma EncodingBijective(c: TimeCategory, n: nat)
    ensures EncodeName(c.Name()) == Some(Encode(c))
    ensures Decode(Encode(c)) == Some(c)
    ensures n < 4 <==> Decode(n).Some?
    ensures Decode(n).Some? ==> Encode(Decode(n).value) == n
  {
  }

  /** The slots are ordered through the day: morning 0, afternoon 1, evening 2, night 3. */
  lemma EncodingFollowsDay(h: int, k: int)
    requires 5 <= h <= k < 24
    ensures Encode(TimeCategoryOf(h)) <= Encode(TimeCategoryOf(k))
  {
  }

  /** `day_of_week.isin([5, 6]).astype(int)`. */
  function IsWeekend(dayOfWeek: int): (w: nat)
    ensures w <= 1
    ensures w == 1 <==> dayOfWeek == 5 || dayOfWeek == 6
  {
    if dayOfWeek == 5 || dayOfWeek == 6 then 1 else 0
  }

  const SecondsPerHour: int := 3600
  const SecondsPerDay: int := 86400

  /** `.dt.hour`. */
  function HourOf(t: int): (h: int)
    ensures 0 <= h < 24
  {
    (t / SecondsPerHour) % 24
  }

  /** `.dt.dayofweek`, Monday being 0; 1970-01-01 was a Thursday. */
  function DayOfWeek(t: int): (d: int)
    ensures 0 <= d < 7
  {
    (t / SecondsPerDay + 3) % 7
  }

  /** The engineered columns of one row whose values are modelled. */
  datatype Features = Features(hour: int, dayOfWeek: int, weekend: nat, category: TimeCategory, encoded: Option<nat>)

  function FeaturesOf(t: int): (f: Features)
    ensures 0 <= f.hour < 24 && 0 <= f.dayOfWeek < 7
    ensures f.weekend == 1 <==> f.dayOfWeek >= 5
  {
    var h := HourOf(t);
    var d := DayOfWeek(t);
    var c := TimeCategoryOf(h);
    Features(h, d, IsWeekend(d), c, EncodeName(c.Name()))
  }

  /**
   * Every row gets an encoding; the weekend flag marks Saturday and Sunday,
   * and the night slot covers the hours from 22 to 4.
   */
  lemma FeaturesConsistent(t: int)
    ensures var f := FeaturesOf(t);
      f.encoded.Some? && f.encoded.value < 4 && Decode(f.encoded.value) == Some(f.category)
      && (f.weekend == 1 <==> f.dayOfWeek >= 5)
      && (f.category == Night <==> f.hour < 5 || f.hour >= 22)
  {
    EncodingBijective(FeaturesOf(t).category, 0);
  }

  /** A day later the hour is the same and the weekday is the next one. */
  lemma NextDay(t: int)
    ensures HourOf(t + SecondsPerDay) == HourOf(t)
    ensures DayOfWeek(t + SecondsPerDay) == (DayOfWeek(t) + 1) % 7
  {
    var q := t / 3600;
    assert (t + 86400) / 3600 == q + 24;
    ModShift24(q, 1);
    assert (t + 86400) / 86400 == t / 86400 + 1;
  }

  lemma ModShift24(q: int, k: int)
    ensures (q + k * 24) % 24 == q % 24
  {
  }

  lemma ModShift7(q: int, k: int)
    ensures (q + k * 7) % 7 == q % 7
  {
  }

  /** A week later every modelled feature repeats. */
  lemma WeeklyPeriod(t: int)
    ensures FeaturesOf(t + 7 * SecondsPerDay) == FeaturesOf(t)
  {
    var q := t / 3600;
    var d := t / 86400;
    assert (t + 604800) / 3600 == q + 168;
    assert (t + 604800) / 86400 == d + 7;
    ModShift24(q, 7);
    ModShift7(d + 3, 1);
  }

  // ---------------------------------------------------------------------------
  // Column names
  // ---------------------------------------------------------------------------

  /** `'Signal Quality' in col or 'signal_quality' in col.lower()`. */
  predicate DropsColumn(col: string)
  {
    Text.Contains(col, "Signal Quality") || Text.Contains(Text.Lower(col), "signal_quality")
  }

  /** The columns left after dropping, in their order: none of them is dropped, and there are no more of them. */
  function DropColumns(cols: seq<string>): (r: seq<string>)
    ensures |r| <= |cols|
    ensures forall i :: 0 <= i < |r| ==> !DropsColumn(r[i])
  {
    if cols == [] then []
    else DropColumns(cols[..|cols| - 1]) + (if DropsColumn(cols[|cols| - 1]) then [] else [cols[|cols| - 1]])
  }

  /** The kept columns are exactly the columns the test does not drop. */
  lemma {:induction false} DropColumnsMembers(cols: seq<string>)
    ensures forall c :: c in DropColumns(cols) <==> c in cols && !DropsColumn(c)
  {
    if cols != [] {
      var front, last := cols[..|cols| - 1], cols[|cols| - 1];
      DropColumnsMembers(front);
      assert cols == front + [last];
    }
  }

  /** Dropping works column by column, so it keeps the relative order of what it keeps. */
  lemma {:induction false} DropColumnsAppend(a: seq<string>, b: seq<string>)
    ensures DropColumns(a + b) == DropColumns(a) + DropColumns(b)
    decreases |b|
  {
    if b == [] {
      assert a + b == a;
    } else {
      assert (a + b)[..|a + b| - 1] == a + b[..|b| - 1];
      assert (a + b)[|a + b| - 1] == b[|b| - 1];
      DropColumnsAppend(a, b[..|b| - 1]);
    }
  }

  /** The standard names of `column_mapping`, in the order the rules are tried. */
  datatype Target = Latitude | Longitude | SignalStrength | DataThroughput | NetworkType | Locality {
    function Name(): string
    {
      match this
      case Latitude => "Latitude"
      case Longitude => "Longitude"
      case SignalStrength => "Signal_Strength"
      case DataThroughput => "Data_Throughput"
      case NetworkType => "Network_Type"
      case Locality => "Locality"
    }

    function Rank(): nat
    {
      match this
      case Latitude => 0
      case Longitude => 1
      case SignalStrength => 2
      case DataThroughput => 3
      case NetworkType => 4
      case Locality => 5
    }
  }

  /** The substring test of one rule on a lower-cased name. */
  predicate RuleMatches(t: Target, lower: string)
  {
    match t
    case Latitude => Text.Contains(lower, "latitude")
    case Longitude => Text.Contains(lower, "longitude")
    case SignalStrength => Text.Contains(lower, "signal strength") || Text.Contains(lower, "signal_strength")
    case DataThroughput => Text.Contains(lower, "data throughput") || Text.Contains(lower, "throughput")
    case NetworkType => Text.Contains(lower, "network type") || Text.Contains(lower, "network_type")
    case Locality => Text.Contains(lower, "locality") || Text.Contains(lower, "location")
  }

  /**
   * The name a column is renamed to: the first rule, in order, whose test
   * holds on the lower-cased name; none when no rule matches.
   */
  function Canonical(col: string): (r: Option<Target>)
    ensures r.Some? ==> RuleMatches(r.value, Text.Lower(col))
    ensures r.Some? ==> forall t: Target :: t.Rank() < r.value.Rank() ==> !RuleMatches(t, Text.Lower(col))
    ensures r.None? <==> forall t: Target :: !RuleMatches(t, Text.Lower(col))
  {
    var l := Text.Lower(col);
    if RuleMatches(Latitude, l) then Some(Latitude)
    else if RuleMatches(Longitude, l) then Some(Longitude)
    else if RuleMatches(SignalStrength, l) then Some(SignalStrength)
    else if RuleMatches(DataThroughput, l) then Some(DataThroughput)
    else if RuleMatches(NetworkType, l) then Some(NetworkType)
    else if RuleMatches(Locality, l) then Some(Locality)
    else None
  }

  /** The loop that fills `column_mapping`, one `if`/`elif` chain per column. */
  method BuildColumnMapping(cols: seq<string>) returns (mapping: map<string, Target>)
    ensures forall c :: c in mapping <==> c in cols && Canonical(c).Some?
    ensures forall c :: c in mapping ==> Canonical(c) == Some(mapping[c])
  {
    mapping := map[];
    var i := 0;
    while i < |cols|
      invariant 0 <= i <= |cols|
      invariant forall c :: c in mapping <==> c in cols[..i] && Canonical(c).Some?
      invariant forall c :: c in mapping ==> Canonical(c) == Some(mapping[c])
    {
      var col := cols[i];
      var lower := Text.Lower(col);
      if Text.Contains(lower, "latitude") {
        mapping := mapping[col := Latitude];
      } else if Text.Contains(lower, "longitude") {
        mapping := mapping[col := Longitude];
      } else if Text.Contains(lower, "signal strength") || Text.Contains(lower, "signal_strength") {
        mapping := mapping[col := SignalStrength];
      } else if Text.Contains(lower, "data throughput") || Text.Contains(lower, "throughput") {
        mapping := mapping[col := DataThroughput];
      } else if Text.Contains(lower, "network type") || Text.Contains(lower, "network_type") {
        mapping := mapping[col := NetworkType];
      } else if Text.Contains(lower, "locality") || Text.Contains(lower, "location") {
        mapping := mapping[col := Locality];
      }
      assert cols[..i + 1] == cols[..i] + [col];
      i := i + 1;
    }
    assert cols[..i] == cols;
  }

  /** `df.rename(columns=mapping)` on the column names. */
  function Rename(cols: seq<string>, mapping: map<string, Target>): seq<string>
  {
    seq(|cols|, i requires 0 <= i < |cols| => if cols[i] in mapping then mapping[cols[i]].Name() else cols[i])
  }

  /** The renamed column names: each matched column gets its standard name, every other column keeps its own. */
  function Renamed(cols: seq<string>): (r: seq<string>)
    ensures |r| == |cols|
  {
    seq(|cols|, i requires 0 <= i < |cols| => match Canonical(cols[i]) case Some(t) => t.Name() case None => cols[i])
  }

  /** Renaming with the built mapping gives the standard names of the matched columns and leaves the rest. */
  lemma RenameByMapping(cols: seq<string>, mapping: map<string, Target>)
    requires forall c :: c in mapping <==> c in cols && Canonical(c).Some?
    requires forall c :: c in mapping ==> Canonical(c) == Some(mapping[c])
    ensures Rename(cols, mapping) == Renamed(cols)
  {
  }

  /** Building the mapping and renaming, as the preprocessor does. */
  method RenameColumns(cols: seq<string>) returns (renamed: seq<string>)
    ensures renamed == Renamed(cols)
  {
    var mapping := BuildColumnMapping(cols);
    renamed := Rename(cols, mapping);
    RenameByMapping(cols, mapping);
  }

  /** A substring is never longer than the string holding it. */
  /** Whatever the renaming, a renamed column carries a standard name, or its own name when no rule matches it. */
  lemma RenamedNames(cols: seq<string>, i: nat)
    requires i < |cols|
    ensures Canonical(cols[i]).None? ==> Renamed(cols)[i] == cols[i]
    ensures Canonical(cols[i]).Some? ==> exists t: Target :: Renamed(cols)[i] == t.Name() && RuleMatches(t, Text.Lower(cols[i]))
  {
    if Canonical(cols[i]).Some? {
      var t := Canonical(cols[i]).value;
      assert Renamed(cols)[i] == t.Name();
    }
  }

  /** A pattern that is at least as long as the string, less one, and starts with neither of its first two characters does not occur in it. */
  lemma MissesFirstTwo(s: string, p: string)
    requires p != [] && |s| <= |p| + 1
    requires |s| > 0 ==> p[0] != s[0]
    requires |s| > 1 ==> p[0] != s[1]
    ensures !Text.Contains(s, p)
  {
    if |s| > 0 {
      assert !(p <= s) by {
        if |p| <= |s| {
          assert s[..|p|][0] == s[0];
        }
      }
      var t := s[1..];
      if |t| > 0 {
        assert !(p <= t) by {
          if |p| <= |t| {
            assert t[..|p|][0] == t[0];
          }
        }
      }
    }
  }

  lemma LowerTimestamp()
    ensures Text.Lower("Timestamp") == "timestamp"
  {
    var l := Text.Lower("Timestamp");
    assert l[0] == 't';
  }

  /** "Timestamp" is neither dropped nor renamed: it is too short for most patterns and starts differently from the rest. */
  lemma TimestampKept()
    ensures !DropsColumn("Timestamp")
    ensures Canonical("Timestamp").None?
  {
    LowerTimestamp();
    var l := "timestamp";
    LongerMisses("Timestamp", "Signal Quality");
    LongerMisses(l, "signal_quality");
    MissesFirstTwo(l, "latitude");
    MissesFirstTwo(l, "longitude");
    MissesFirstTwo(l, "locality");
    MissesFirstTwo(l, "location");
    LongerMisses(l, "signal strength");
    LongerMisses(l, "signal_strength");
    LongerMisses(l, "data throughput");
    LongerMisses(l, "throughput");
    LongerMisses(l, "network type");
    LongerMisses(l, "network_type");
  }

  lemma LongerMisses(s: string, p: string)
    requires |s| < |p|
    ensures !Text.Contains(s, p)
  {
  }

  /** Assigning a new column appends it; assigning an existing one leaves the names as they are. */
  function AddColumn(cols: seq<string>, name: string): (r: seq<string>)
    ensures name in r && cols <= r
  {
    if name in cols then cols else cols + [name]
  }

  function AddColumns(cols: seq<string>, names: seq<string>): (r: seq<string>)
    ensures forall n :: n in names ==> n in r
    ensures cols <= r
    decreases |names|
  {
    if names == [] then cols
    else
      var r := AddColumns(AddColumn(cols, names[0]), names[1..]);
      assert forall n :: n in names ==> n == names[0] || n in names[1..];
      r
  }

  const TemporalColumns: seq<string> :=
    ["hour_of_day", "day_of_week", "day_of_month", "month", "is_weekend", "time_of_day_category", "time_of_day_encoded"]

  /** How the `Locality` column is made when the renaming did not produce one. */
  datatype LocalitySource = Existing | FromCoordinates | FromIndex

  function LocalityFrom(cols: seq<string>): LocalitySource
  {
    if "Locality" in cols then Existing
    else if "Latitude" in cols && "Longitude" in cols then FromCoordinates
    else FromIndex
  }

  /**
   * The column names `preprocess` produces, with where `Locality` came
   * from; none when the frame has no timestamp column, as sorting by
   * `Timestamp` then raises.
   */
  function PreprocessColumns(cols: seq<string>): (r: Option<(seq<string>, LocalitySource)>)
    ensures r.Some? <==> "Timestamp" in cols || "timestamp" in cols
    ensures r.Some? ==> "Locality" in r.value.0
  {
    var stamped :=
      if "Timestamp" in cols then cols
      else if "timestamp" in cols then AddColumn(cols, "Timestamp")
      else cols;
    if "Timestamp" !in stamped then None
    else
      var named := Renamed(DropColumns(stamped));
      var featured := if "Timestamp" in named then AddColumns(named, TemporalColumns) else named;
      Some((AddColumn(featured, "Locality"), LocalityFrom(featured)))
  }

  /**
   * Preprocessing succeeds exactly when there is a `Timestamp` or a
   * `timestamp` column, and then its result keeps `Timestamp` and has every
   * engineered column and a `Locality` column.
   */
  lemma PreprocessColumnsOutcome(cols: seq<string>)
    ensures PreprocessColumns(cols).Some? <==> "Timestamp" in cols || "timestamp" in cols
    ensures PreprocessColumns(cols).Some? ==>
      var names := PreprocessColumns(cols).value.0;
      "Timestamp" in names && "Locality" in names && forall n :: n in TemporalColumns ==> n in names
  {
    var stamped :=
      if "Timestamp" in cols then cols
      else if "timestamp" in cols then AddColumn(cols, "Timestamp")
      else cols;
    if "Timestamp" in stamped {
      var named := Renamed(DropColumns(stamped));
      TimestampSurvives(stamped);
      var featured := AddColumns(named, TemporalColumns);
      InPrefix("Timestamp", named, featured);
      InPrefix("Timestamp", featured, AddColumn(featured, "Locality"));
      forall n | n in TemporalColumns ensures n in AddColumn(featured, "Locality") {
        InPrefix(n, featured, AddColumn(featured, "Locality"));
      }
    }
  }

  lemma InPrefix(x: string, a: seq<string>, b: seq<string>)
    requires x in a && a <= b
    ensures x in b
  {
    var k :| 0 <= k < |a| && a[k] == x;
    assert b[k] == x;
  }

  /** A `Timestamp` column is still there after dropping and renaming. */
  lemma TimestampSurvives(cols: seq<string>)
    requires "Timestamp" in cols
    ensures "Timestamp" in Renamed(DropColumns(cols))
  {
    TimestampKept();
    DropColumnsMembers(cols);
    var kept := DropColumns(cols);
    var k :| 0 <= k < |kept| && kept[k] == "Timestamp";
    assert Renamed(kept)[k] == "Timestamp";
  }

  // ---------------------------------------------------------------------------
  // Forward-then-backward fill of one numeric column
  // ---------------------------------------------------------------------------

  /** The nearest present cell at or before `i`, -1 when there is none. */
  function LastIndex(s: seq<Option<real>>, i: nat): (j: int)
    requires i < |s|
    ensures -1 <= j <= i
    ensures j >= 0 ==> s[j].Some?
    ensures forall k :: j < k <= i ==> s[k].None?
  {
    if s[i].Some? then i else if i == 0 then -1 else LastIndex(s, i - 1)
  }

  /** The nearest present cell at or after `i`, `|s|` when there is none. */
  function FirstIndex(s: seq<Option<real>>, i: nat): (j: nat)
    requires i <= |s|
    ensures i <= j <= |s|
    ensures j < |s| ==> s[j].Some?
    ensures forall k :: i <= k < j ==> s[k].None?
    decreases |s| - i
  {
    if i == |s| then i else if s[i].Some? then i else FirstIndex(s, i + 1)
  }

  /** `ffill`: each cell takes the nearest present value at or before it. */
  function ForwardFilled(s: seq<Option<real>>): (r: seq<Option<real>>)
    ensures |r| == |s|
  {
    seq(|s|, i requires 0 <= i < |s| => var j := LastIndex(s, i); if j >= 0 then s[j] else None)
  }

  /** `bfill`: each cell takes the nearest present value at or after it. */
  function BackwardFilled(s: seq<Option<real>>): (r: seq<Option<real>>)
    ensures |r| == |s|
  {
    seq(|s|, i requires 0 <= i < |s| => var j := FirstIndex(s, i); if j < |s| then s[j] else None)
  }

  function Filled(s: seq<Option<real>>): (r: seq<Option<real>>)
    ensures |r| == |s|
  {
    BackwardFilled(ForwardFilled(s))
  }

  /** The forward pass over the column, carrying the last value seen. */
  method ForwardFill(a: array<Option<real>>)
    modifies a
    ensures a[..] == ForwardFilled(old(a[..]))
  {
    ghost var s := a[..];
    var last: Option<real> := None;
    var i := 0;
    while i < a.Length
      invariant 0 <= i <= a.Length
      invariant a[..i] == ForwardFilled(s)[..i] && a[i..] == s[i..]
      invariant last == if i == 0 then None else ForwardFilled(s)[i - 1]
    {
      ForwardStep(s, i);
      assert a[i] == s[i];
      if a[i].None? {
        a[i] := last;
      } else {
        last := a[i];
      }
      assert a[..i + 1] == a[..i] + [a[i]];
      assert ForwardFilled(s)[..i + 1] == ForwardFilled(s)[..i] + [ForwardFilled(s)[i]];
      i := i + 1;
    }
    assert a[..] == a[..i];
  }

  /** A filled cell is the cell itself when present, the filled cell before it otherwise. */
  lemma ForwardStep(s: seq<Option<real>>, i: nat)
    requires i < |s|
    ensures ForwardFilled(s)[i] == if s[i].Some? then s[i] else if i == 0 then None else ForwardFilled(s)[i - 1]
  {
  }

  /** A filled cell is the cell itself when present, the filled cell after it otherwise. */
  lemma BackwardStep(s: seq<Option<real>>, i: nat)
    requires i < |s|
    ensures BackwardFilled(s)[i] == if s[i].Some? then s[i] else if i == |s| - 1 then None else BackwardFilled(s)[i + 1]
  {
  }

  /** The backward pass, from the last cell to the first, carrying the next value seen. */
  method BackwardFill(a: array<Option<real>>)
    modifies a
    ensures a[..] == BackwardFilled(old(a[..]))
  {
    ghost var s := a[..];
    var next: Option<real> := None;
    var i := a.Length;
    while i > 0
      invariant 0 <= i <= a.Length
      invariant forall k :: i <= k < a.Length ==> a[k] == BackwardFilled(s)[k]
      invariant forall k :: 0 <= k < i ==> a[k] == s[k]
      invariant next == if i == a.Length then None else BackwardFilled(s)[i]
    {
      i := i - 1;
      BackwardStep(s, i);
      if a[i].None? {
        a[i] := next;
      } else {
        next := a[i];
      }
    }
  }

  /** `ffill().bfill()` on one numeric column, in place. */
  method FillColumn(a: array<Option<real>>)
    modifies a
    ensures a[..] == Filled(old(a[..]))
  {
    ForwardFill(a);
    BackwardFill(a);
  }

  /** A position that no earlier gap precedes and at which a value is (or the end) is the first present one. */
  lemma FirstIndexAt(s: seq<Option<real>>, i: nat, j: nat)
    requires i <= j <= |s| && (j < |s| ==> s[j].Some?)
    requires forall k :: i <= k < j ==> s[k].None?
    ensures FirstIndex(s, i) == j
  {
  }

  /** With nothing present up to `i`, the forward pass leaves gaps up to the first present cell, which it keeps. */
  lemma ForwardFirst(s: seq<Option<real>>, i: nat)
    requires i < |s| && LastIndex(s, i) < 0
    ensures FirstIndex(ForwardFilled(s), i) == FirstIndex(s, i)
    ensures FirstIndex(s, i) < |s| ==> ForwardFilled(s)[FirstIndex(s, i)] == s[FirstIndex(s, i)]
  {
    var f := ForwardFilled(s);
    var j := FirstIndex(s, i);
    forall k | i <= k < j
      ensures f[k].None?
    {
      assert LastIndex(s, k) < 0;
    }
    FirstIndexAt(f, i, j);
  }

  /**
   * The fill keeps every present value; a gap takes the nearest earlier
   * value, or the nearest later one when there is no earlier value; and a
   * column with any present value ends without gaps.
   */
  lemma FillProperties(s: seq<Option<real>>, i: nat)
    requires i < |s|
    ensures |Filled(s)| == |s|
    ensures s[i].Some? ==> Filled(s)[i] == s[i]
    ensures LastIndex(s, i) >= 0 ==> Filled(s)[i] == s[LastIndex(s, i)]
    ensures LastIndex(s, i) < 0 && FirstIndex(s, i) < |s| ==> Filled(s)[i] == s[FirstIndex(s, i)]
    ensures (exists k :: 0 <= k < |s| && s[k].Some?) ==> Filled(s)[i].Some?
  {
    var f := ForwardFilled(s);
    if LastIndex(s, i) >= 0 {
      FirstIndexAt(f, i, i);
    } else {
      ForwardFirst(s, i);
      if exists k :: 0 <= k < |s| && s[k].Some? {
        var k :| 0 <= k < |s| && s[k].Some?;
        assert k > i;
      }
    }
  }

  // ---------------------------------------------------------------------------
  // Temporal train/test split
  // ---------------------------------------------------------------------------

  /** One row: its timestamp and its other cells. */
  datatype Row = Row(timestamp: int, cells: seq<Option<real>>)

  predicate SortedByTime(rows: seq<Row>)
  {
    forall i, j :: 0 <= i < j < |rows| ==> rows[i].timestamp <= rows[j].timestamp
  }

  /** Inserting before the first later row. */
  function Insert(x: Row, rows: seq<Row>): (r: seq<Row>)
    ensures |r| == |rows| + 1
  {
    if rows == [] then [x]
    else if x.timestamp <= rows[0].timestamp then [x] + rows
    else [rows[0]] + Insert(x, rows[1..])
  }

  /** Inserting adds the row and nothing else. */
  lemma {:induction false} InsertPermutes(x: Row, rows: seq<Row>)
    ensures multiset(Insert(x, rows)) == multiset(rows) + multiset{x}
  {
    if rows != [] && x.timestamp > rows[0].timestamp {
      InsertPermutes(x, rows[1..]);
      assert rows == [rows[0]] + rows[1..];
    }
  }

  /** Every row of an insertion is the inserted row or one of the old rows. */
  lemma {:induction false} InsertMembers(x: Row, rows: seq<Row>)
    ensures forall y :: y in Insert(x, rows) ==> y == x || y in rows
  {
    if rows != [] && x.timestamp > rows[0].timestamp {
      InsertMembers(x, rows[1..]);
    }
  }

  /** Inserting into a sorted list keeps it sorted. */
  lemma {:induction false} InsertSorted(x: Row, rows: seq<Row>)
    requires SortedByTime(rows)
    ensures SortedByTime(Insert(x, rows))
  {
    if rows != [] && x.timestamp > rows[0].timestamp {
      var rest := Insert(x, rows[1..]);
      SortedTail(rows);
      InsertSorted(x, rows[1..]);
      InsertMembers(x, rows[1..]);
      ConsSorted(rows[0], rest);
    }
  }

  /** The tail of a sorted list is sorted and bounded below by the head. */
  lemma SortedTail(rows: seq<Row>)
    requires SortedByTime(rows) && rows != []
    ensures SortedByTime(rows[1..])
    ensures forall y :: y in rows[1..] ==> rows[0].timestamp <= y.timestamp
  {
    forall y | y in rows[1..] ensures rows[0].timestamp <= y.timestamp {
      var k :| 0 <= k < |rows[1..]| && rows[1..][k] == y;
      assert y == rows[k + 1];
    }
  }

  /** A row no later than any row of a sorted list can go in front of it. */
  lemma ConsSorted(h: Row, rest: seq<Row>)
    requires SortedByTime(rest)
    requires forall y :: y in rest ==> h.timestamp <= y.timestamp
    ensures SortedByTime([h] + rest)
  {
    var r := [h] + rest;
    forall i, j | 0 <= i < j < |r|
      ensures r[i].timestamp <= r[j].timestamp
    {
      if i > 0 {
        assert r[i] == rest[i - 1] && r[j] == rest[j - 1];
      } else {
        assert r[j] in rest;
      }
    }
  }

  /** `sort_values('Timestamp')`: the rows in timestamp order; rows with equal timestamps keep their order here. */
  function SortByTime(rows: seq<Row>): (r: seq<Row>)
    ensures |r| == |rows|
  {
    if rows == [] then [] else Insert(rows[|rows| - 1], SortByTime(rows[..|rows| - 1]))
  }

  /** The sort puts the rows in timestamp order and loses or adds none. */
  lemma {:induction false} SortProperties(rows: seq<Row>)
    ensures SortedByTime(SortByTime(rows))
    ensures multiset(SortByTime(rows)) == multiset(rows)
  {
    if rows != [] {
      var front := rows[..|rows| - 1];
      SortProperties(front);
      InsertSorted(rows[|rows| - 1], SortByTime(front));
      InsertPermutes(rows[|rows| - 1], SortByTime(front));
      assert rows == front + [rows[|rows| - 1]];
    }
  }

  /** Python `int()` on a real: truncation toward zero, the integer nearest to `x` on the side of 0. */
  function Trunc(x: real): (n: int)
    ensures x >= 0.0 ==> 0 <= n && n as real <= x < n as real + 1.0
    ensures x < 0.0 ==> n <= 0 && n as real - 1.0 < x <= n as real
  {
    if x >= 0.0 then x.Floor else -((-x).Floor)
  }

  /** Where `iloc[:k]` ends on `n` rows: a negative `k` counts from the end. */
  function SliceEnd(k: int, n: nat): (e: nat)
    ensures e <= n
  {
    if k < 0 then (if n + k < 0 then 0 else n + k) else if k > n then n else k
  }

  /** `train_test_split`: the sorted rows cut at `int(len(df) * (1 - test_size))`. */
  function TrainTestSplit(rows: seq<Row>, testSize: real): (seq<Row>, seq<Row>)
  {
    var sorted := SortByTime(rows);
    Cut(sorted, SplitPoint(|sorted|, testSize))
  }

  /** The split loses and adds no row: the two parts hold exactly the input rows between them. */
  lemma SplitPermutes(rows: seq<Row>, testSize: real)
    ensures |TrainTestSplit(rows, testSize).0| + |TrainTestSplit(rows, testSize).1| == |rows|
    ensures multiset(TrainTestSplit(rows, testSize).0) + multiset(TrainTestSplit(rows, testSize).1) == multiset(rows)
  {
    var sorted := SortByTime(rows);
    var e := SplitPoint(|sorted|, testSize);
    SortProperties(rows);
    assert sorted[..e] + sorted[e..] == sorted;
  }

  /** `iloc[:e]` and `iloc[e:]`. */
  function Cut(rows: seq<Row>, e: nat): (seq<Row>, seq<Row>)
    requires e <= |rows|
  {
    (rows[..e], rows[e..])
  }

  /** `split_idx` as a position of the `n` rows. */
  function SplitPoint(n: nat, testSize: real): (e: nat)
    ensures e <= n
  {
    SliceEnd(Trunc(n as real * (1.0 - testSize)), n)
  }

  /** The two parts of a cut make up the list, and cutting a sorted list leaves no row of the first part later than a row of the second. */
  lemma CutSorted(sorted: seq<Row>, e: nat)
    requires SortedByTime(sorted) && e <= |sorted|
    ensures Cut(sorted, e).0 + Cut(sorted, e).1 == sorted
    ensures forall i, j :: 0 <= i < e && 0 <= j < |sorted| - e ==> Cut(sorted, e).0[i].timestamp <= Cut(sorted, e).1[j].timestamp
  {
    assert sorted[..e] + sorted[e..] == sorted;
    forall i, j | 0 <= i < e && 0 <= j < |sorted| - e
      ensures sorted[..e][i].timestamp <= sorted[e..][j].timestamp
    {
      assert sorted[..e][i] == sorted[i] && sorted[e..][j] == sorted[e + j];
    }
  }

  /**
   * Train followed by test is exactly the sorted rows (which are in
   * timestamp order and a permutation of the input), so every training row
   * is no later than every test row.
   */
  lemma SplitReassembles(rows: seq<Row>, testSize: real)
    ensures TrainTestSplit(rows, testSize).0 + TrainTestSplit(rows, testSize).1 == SortByTime(rows)
    ensures forall i, j :: 0 <= i < |TrainTestSplit(rows, testSize).0| && 0 <= j < |TrainTestSplit(rows, testSize).1| ==>
      TrainTestSplit(rows, testSize).0[i].timestamp <= TrainTestSplit(rows, testSize).1[j].timestamp
  {
    SortProperties(rows);
    CutSorted(SortByTime(rows), SplitPoint(|rows|, testSize));
  }

  /** floor(n (1 - t)), the training rows a test share `t` leaves of `n`. */
  function TrainCount(n: nat, testSize: real): int
  {
    (n as real * (1.0 - testSize)).Floor
  }

  /** For a test size between 0 and 1 the training part has floor(n (1 - t)) rows. */
  lemma SplitSize(rows: seq<Row>, testSize: real)
    requires 0.0 <= testSize <= 1.0
    ensures |TrainTestSplit(rows, testSize).0| == TrainCount(|rows|, testSize)
    ensures |TrainTestSplit(rows, testSize).1| == |rows| - TrainCount(|rows|, testSize)
  {
    SplitParts(rows, testSize);
    SplitPointInRange(|rows|, testSize);
  }

  /** The training part holds the rows before the cut, the test part the rest. */
  lemma SplitParts(rows: seq<Row>, testSize: real)
    ensures |TrainTestSplit(rows, testSize).0| == SplitPoint(|rows|, testSize)
    ensures |TrainTestSplit(rows, testSize).1| == |rows| - SplitPoint(|rows|, testSize)
  {
  }

  /** For a test size between 0 and 1 the cut is floor(n (1 - t)), which lies between 0 and n. */
  lemma SplitPointInRange(n: nat, testSize: real)
    requires 0.0 <= testSize <= 1.0
    ensures SplitPoint(n, testSize) == TrainCount(n, testSize)
  {
    var x := n as real * (1.0 - testSize);
    ScaledBelow(n as real, 1.0 - testSize);
    FloorBetween(x, n);
  }

  lemma FloorBetween(x: real, n: nat)
    requires 0.0 <= x <= n as real
    ensures 0 <= x.Floor <= n
  {
  }

  lemma ScaledBelow(n: real, f: real)
    requires n >= 0.0 && 0.0 <= f <= 1.0
    ensures 0.0 <= n * f <= n
  {
  }
}
