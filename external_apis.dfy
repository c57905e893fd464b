/** The parsers and classifiers behind the external-data routes: USGS
    earthquake features, magnitude colours, GDACS RSS items, NASA FIRMS CSV
    rows, the coastal-India box test and the IMD-style warning rules. All of
    them work on data already fetched; XML parsing, `float()` and the
    haversine distance are parameters. */
module ExternalApis {
  import opened Text
  import Sorting

  /** The colour scale shared by USGS, GDACS and IMD. */
  datatype Level = Green | Yellow | Orange | Red

  function LevelRank(l: Level): nat {
    match l
    case Green => 1
    case Yellow => 2
    case Orange => 3
    case Red => 4
  }

  // ---------------------------------------------------------------------
  // Magnitude to alert colour
  // ---------------------------------------------------------------------

  /** USGS-style colour of a magnitude; none below 4.0. */
  function AlertLevel(magnitude: real): (l: Option<Level>)
    ensures l == Some(Red) <==> magnitude >= 7.0
    ensures l == Some(Orange) <==> 6.0 <= magnitude < 7.0
    ensures l == Some(Yellow) <==> 5.0 <= magnitude < 6.0
    ensures l == Some(Green) <==> 4.0 <= magnitude < 5.0
    ensures l.None? <==> magnitude < 4.0
  {
    if magnitude >= 7.0 then Some(Red)
    else if magnitude >= 6.0 then Some(Orange)
    else if magnitude >= 5.0 then Some(Yellow)
    else if magnitude >= 4.0 then Some(Green)
    else None
  }

  function OptionRank(l: Option<Level>): nat {
    if l.Some? then LevelRank(l.value) else 0
  }

  /** A stronger earthquake never gets a lower colour. */
  lemma AlertLevelMonotone(m1: real, m2: real)
    requires m1 <= m2
    ensures OptionRank(AlertLevel(m1)) <= OptionRank(AlertLevel(m2))
  {
  }

  // ---------------------------------------------------------------------
  // USGS features
  // ---------------------------------------------------------------------

  /** A GeoJSON feature; absent properties are None and absent coordinates []. */
  datatype UsgsFeature = UsgsFeature(id: Option<string>, magnitude: Option<real>, place: Option<string>,
                                     eventType: Option<string>, tsunami: Option<int>,
                                     coordinates: seq<real>)

  datatype Quake = Quake(id: Option<string>, magnitude: Option<real>, latitude: real,
                         longitude: real, depthKm: real, place: string,
                                   eventType: string, tsunamiWarning: bool)

  /** GeoJSON order is longitude, latitude, depth. */
  function QuakeOf(f: UsgsFeature): Quake
    requires |f.coordinates| >= 3
  {
    Quake(f.id, f.magnitude, f.coordinates[1], f.coordinates[0], f.coordinates[2],
               f.place.GetOr("Unknown location"), f.eventType.GetOr("earthquake"),
               f.tsunami.GetOr(0) == 1)
  }

  predicate HasPosition(f: UsgsFeature) {
    |f.coordinates| >= 3
  }

  /** The earthquakes of the features that carry three coordinates, in order. */
  function Quakes(fs: seq<UsgsFeature>): seq<Quake>
    decreases |fs|
  {
    if fs == [] then []
    else Quakes(fs[..|fs| - 1])
         + (if HasPosition(fs[|fs| - 1]) then [QuakeOf(fs[|fs| - 1])] else [])
  }

  /** Exactly the positioned features appear, each converted. */
  lemma {:induction false} QuakesMembers(fs: seq<UsgsFeature>, q: Quake)
    ensures q in Quakes(fs) <==> exists i :: 0 <= i < |fs| && HasPosition(fs[i]) && QuakeOf(fs[i]) == q
    ensures |Quakes(fs)| <= |fs|
    decreases |fs|
  {
    if fs != [] {
      var init := fs[..|fs| - 1];
      QuakesMembers(init, q);
      if exists i :: 0 <= i < |fs| && HasPosition(fs[i]) && QuakeOf(fs[i]) == q {
        var i :| 0 <= i < |fs| && HasPosition(fs[i]) && QuakeOf(fs[i]) == q;
        if i < |fs| - 1 {
          assert init[i] == fs[i];
        }
      }
      if q in Quakes(init) {
        var i :| 0 <= i < |init| && HasPosition(init[i]) && QuakeOf(init[i]) == q;
        assert fs[i] == init[i];
      }
    }
  }

  /** Processing keeps the order of the features: the quakes of a concatenation
      are the quakes of each part, one after the other. */
  lemma {:induction false} QuakesAppend(a: seq<UsgsFeature>, b: seq<UsgsFeature>)
    ensures Quakes(a + b) == Quakes(a) + Quakes(b)
    decreases |b|
  {
    if b == [] {
      assert a + b == a;
    } else {
      var b' := b[..|b| - 1];
      QuakesAppend(a, b');
      assert (a + b)[..|a + b| - 1] == a + b';
      assert (a + b)[|a + b| - 1] == b[|b| - 1];
    }
  }

  /** A single feature gives its quake when it has a position, and nothing otherwise. */
  lemma QuakesSingle(f: UsgsFeature)
    ensures Quakes([f]) == if HasPosition(f) then [QuakeOf(f)] else []
  {
    assert [f][..0] == [];
  }

  method ProcessUsgs(features: Option<seq<UsgsFeature>>) returns (quakes: seq<Quake>)
    ensures quakes == Quakes(features.GetOr([]))
  {
    var fs := features.GetOr([]);
    quakes := [];
    var i := 0;
    while i < |fs|
      invariant 0 <= i <= |fs|
      invariant quakes == Quakes(fs[..i])
    {
      assert fs[..i + 1][..i] == fs[..i];
      if |fs[i].coordinates| >= 3 {
        quakes := quakes + [QuakeOf(fs[i])];
      }
      i := i + 1;
    }
    assert fs[..i] == fs;
  }

  // ---------------------------------------------------------------------
  // GDACS RSS items
  // ---------------------------------------------------------------------

  /** A child element: absent, present without text, or present with text. */
  datatype XmlText = Missing | NoText | Text(s: string)

  /** An `<item>`: its children, and the whitespace-separated words of its
      `georss:point` (None when the point is absent or has no text). */
  datatype GdacsItem = GdacsItem(title: XmlText, description: XmlText, pubDate: XmlText,
                                 link: XmlText, point: Option<seq<string>>)

  datatype EventType = Earthquake | Flood | Cyclone | Volcano | Drought | Wildfire | Unknown

  datatype GdacsAlert = GdacsAlert(eventId: string, eventType: EventType, alertLevel: Level,
                                   title: string, description: string, pubDate: Option<string>,
                                   link: Option<string>, lat: real, lon: real)

  /** 'Red' in the title wins over 'Orange' (both case-sensitive); else Green. */
  function GdacsLevel(title: string): (l: Level)
    ensures l == Red <==> Contains(title, "Red")
    ensures l == Orange <==> !Contains(title, "Red") && Contains(title, "Orange")
    ensures l == Green <==> !Contains(title, "Red") && !Contains(title, "Orange")
  {
    if Contains(title, "Red") then Red
    else if Contains(title, "Orange") then Orange
    else Green
  }

  /** The classification chain over the lower-cased title. */
  function KeywordType(lower: string): EventType {
    if Contains(lower, "earthquake") then Earthquake
    else if Contains(lower, "flood") then Flood
    else if Contains(lower, "cyclone") || Contains(lower, "storm") || Contains(lower, "typhoon") then Cyclone
    else if Contains(lower, "volcano") then Volcano
    else if Contains(lower, "drought") then Drought
    else if Contains(lower, "wildfire") || Contains(lower, "fire") then Wildfire
    else Unknown
  }

  /** The keywords in the order they are tried, with the type each selects. */
  const EventKeywords: seq<(string, EventType)> := [
    ("earthquake", Earthquake), ("flood", Flood),
    ("cyclone", Cyclone), ("storm", Cyclone), ("typhoon", Cyclone),
    ("volcano", Volcano), ("drought", Drought),
    ("wildfire", Wildfire), ("fire", Wildfire)]

  /** The type of the first keyword of the table that occurs in the text. */
  function FirstKeyword(table: seq<(string, EventType)>, text: string): EventType
    decreases |table|
  {
    if table == [] then Unknown
    else if Contains(text, table[0].0) then table[0].1
    else FirstKeyword(table[1..], text)
  }

  /** The keyword at position k is the first of the table in the text. */
  predicate FirstMatchAt(table: seq<(string, EventType)>, text: string, k: int) {
    0 <= k < |table| && Contains(text, table[k].0)
    && forall j :: 0 <= j < k ==> !Contains(text, table[j].0)
  }

  /** The type chosen is that of the first keyword in the text, or Unknown
      when no keyword of the table occurs. */
  lemma {:induction false} FirstKeywordMeaning(table: seq<(string, EventType)>, text: string)
    ensures (forall k :: 0 <= k < |table| ==> !Contains(text, table[k].0)) ==>
              FirstKeyword(table, text) == Unknown
    ensures forall k :: FirstMatchAt(table, text, k) ==> FirstKeyword(table, text) == table[k].1
    decreases |table|
  {
    if table != [] {
      var rest := table[1..];
      FirstKeywordMeaning(rest, text);
      forall k | FirstMatchAt(table, text, k)
        ensures FirstKeyword(table, text) == table[k].1
      {
        if k > 0 {
          assert !Contains(text, table[0].0);
          assert FirstMatchAt(rest, text, k - 1) by {
            forall j | 0 <= j < k - 1 ensures !Contains(text, rest[j].0) {
              assert rest[j] == table[j + 1];
            }
          }
        }
      }
      if forall k :: 0 <= k < |table| ==> !Contains(text, table[k].0) {
        forall k | 0 <= k < |rest| ensures !Contains(text, rest[k].0) {
          assert rest[k] == table[k + 1];
        }
      }
    }
  }

  /** The keyword chain is the first-match rule over the keyword table. */
  lemma KeywordTypeIsFirstMatch(lower: string)
    ensures KeywordType(lower) == FirstKeyword(EventKeywords, lower)
  {
    var t := EventKeywords;
    assert t[0..] == t;
    assert t[0].0 == "earthquake" && t[1].0 == "flood" && t[2].0 == "cyclone";
    assert t[3].0 == "storm" && t[4].0 == "typhoon";
    FirstKeywordStep(t, 0, lower);
    FirstKeywordStep(t, 1, lower);
    FirstKeywordStep(t, 2, lower);
    FirstKeywordStep(t, 3, lower);
    FirstKeywordStep(t, 4, lower);
    LaterKeywords(lower);
  }

  /** The last four entries of the table: volcano, drought, wildfire, fire. */
  lemma LaterKeywords(lower: string)
    ensures FirstKeyword(EventKeywords[5..], lower)
         == if Contains(lower, "volcano") then Volcano
            else if Contains(lower, "drought") then Drought
            else if Contains(lower, "wildfire") || Contains(lower, "fire") then Wildfire
            else Unknown
  {
    var t := EventKeywords;
    assert t[5].0 == "volcano" && t[6].0 == "drought" && t[7].0 == "wildfire" && t[8].0 == "fire";
    FirstKeywordStep(t, 5, lower);
    FirstKeywordStep(t, 6, lower);
    FirstKeywordStep(t, 7, lower);
    FirstKeywordStep(t, 8, lower);
    assert t[9..] == [];
  }

  lemma FirstKeywordStep(table: seq<(string, EventType)>, k: nat, text: string)
    requires k < |table|
    ensures FirstKeyword(table[k..], text)
         == if Contains(text, table[k].0) then table[k].1 else FirstKeyword(table[k + 1..], text)
  {
    assert table[k..][1..] == table[k + 1..];
  }

  /** An item whose processing raises: a title element without text, or a
      point whose first two words do not parse as numbers. */
  predicate Fails(item: GdacsItem, parse: string -> Option<real>) {
    || item.title.NoText?
    || (item.point.Some? && |item.point.value| >= 2
        && (parse(item.point.value[0]).None? || parse(item.point.value[1]).None?))
  }

  /** `element.text if element is not None else ''`; a text-less element gives None. */
  function TextOrEmpty(x: XmlText): Option<string> {
    match x
    case Missing => Some("")
    case NoText => None
    case Text(s) => Some(s)
  }

  /** The alert of the item at position i, or None when processing it raises. */
  function ClassifyItem(item: GdacsItem, i: nat, parse: string -> Option<real>): (a: Option<GdacsAlert>)
    ensures a.None? <==> Fails(item, parse)
    ensures a.Some? ==> && a.value.eventId == "gdacs-" + NatToString(i)
                        && |a.value.description| <= 500
                        && a.value.alertLevel == GdacsLevel(a.value.title)
                        && a.value.eventType == FirstKeyword(EventKeywords, Lower(a.value.title))
                        && a.value.title == (if item.title.Text? then item.title.s else "")
                        && a.value.description
                           == (if item.description.Text? then Take(item.description.s, 500) else "")
  {
    if Fails(item, parse) then None else Some(AlertOf(item, i, parse))
  }

  /** The alert built from an item, for one that processes without raising. */
  function AlertOf(item: GdacsItem, i: nat, parse: string -> Option<real>): (a: GdacsAlert)
    ensures a.eventId == "gdacs-" + NatToString(i)
    ensures |a.description| <= 500
    ensures a.alertLevel == GdacsLevel(a.title)
    ensures a.eventType == FirstKeyword(EventKeywords, Lower(a.title))
    ensures a.title == (if item.title.Text? then item.title.s else "")
    ensures a.description == (if item.description.Text? then Take(item.description.s, 500) else "")
    ensures a.pubDate == TextOrEmpty(item.pubDate) && a.link == TextOrEmpty(item.link)
    ensures item.point.Some? && |item.point.value| >= 2 && !Fails(item, parse) ==>
              Some(a.lat) == parse(item.point.value[0]) && Some(a.lon) == parse(item.point.value[1])
    ensures (item.point.None? || |item.point.value| < 2) ==> a.lat == 0.0 && a.lon == 0.0
  {
    var title := if item.title.Text? then item.title.s else "";
    var point := item.point.GetOr([]);
    var lat := if |point| >= 2 then parse(point[0]).GetOr(0.0) else 0.0;
    var lon := if |point| >= 2 then parse(point[1]).GetOr(0.0) else 0.0;
    var description := if item.description.Text? then Take(item.description.s, 500) else "";
    // The keyword chain on the lower-cased title, in its table form
    // (KeywordTypeIsFirstMatch).
    GdacsAlert("gdacs-" + NatToString(i), FirstKeyword(EventKeywords, Lower(title)), GdacsLevel(title), title,
               description, TextOrEmpty(item.pubDate), TextOrEmpty(item.link), lat, lon)
  }

  /** The number of items processed before the first one that raises. */
  function ParsedCount(items: seq<GdacsItem>, parse: string -> Option<real>): (n: nat)
    ensures n <= |items|
    ensures forall i :: 0 <= i < n ==> !Fails(items[i], parse)
    ensures n < |items| ==> Fails(items[n], parse)
    decreases |items|
  {
    if items == [] || Fails(items[0], parse) then 0
    else
      var n := ParsedCount(items[1..], parse);
      assert forall i :: 1 <= i < n + 1 ==> items[i] == items[1..][i - 1];
      n + 1
  }

  /** The alerts of the items in order; an exception ends the loop but keeps
      the alerts built so far; unparseable XML gives none; at most 30 are returned. */
  method ParseGdacs(items: Option<seq<GdacsItem>>, parse: string -> Option<real>)
    returns (alerts: seq<GdacsAlert>)
    ensures var xs := items.GetOr([]);
            alerts == Take(AlertsOf(xs, parse, ParsedCount(xs, parse)), 30)
  {
    var xs := items.GetOr([]);
    ghost var n := ParsedCount(xs, parse);
    var all: seq<GdacsAlert> := [];
    var i := 0;
    while i < |xs| && !Fails(xs[i], parse)
      invariant 0 <= i <= n
      invariant all == AlertsOf(xs, parse, i)
    {
      AlertsStep(xs, parse, i);
      all := all + [AlertOf(xs[i], i, parse)];
      i := i + 1;
    }
    assert i == n;
    alerts := Take(all, 30);
  }

  /** The alerts returned are those of the first items, at most 30 of them,
      each the classification of its item. */
  lemma GdacsAlertsClassified(xs: seq<GdacsItem>, parse: string -> Option<real>)
    ensures var alerts := Take(AlertsOf(xs, parse, ParsedCount(xs, parse)), 30);
            && |alerts| == Min(ParsedCount(xs, parse), 30)
            && forall i :: 0 <= i < |alerts| ==> ClassifyItem(xs[i], i, parse) == Some(alerts[i])
  {
    var n := ParsedCount(xs, parse);
    AlertsElements(xs, parse, n);
    var alerts := Take(AlertsOf(xs, parse, n), 30);
    forall i | 0 <= i < |alerts|
      ensures ClassifyItem(xs[i], i, parse) == Some(alerts[i])
    {
      assert alerts[i] == AlertsOf(xs, parse, n)[i] == AlertOf(xs[i], i, parse);
    }
  }

  /** The alerts of the first n items. */
  ghost function AlertsOf(xs: seq<GdacsItem>, parse: string -> Option<real>, n: nat): seq<GdacsAlert>
    requires n <= |xs|
  {
    Indexed(xs, (item: GdacsItem, j: nat) => AlertOf(item, j, parse), n)
  }

  lemma AlertsStep(xs: seq<GdacsItem>, parse: string -> Option<real>, i: nat)
    requires i < |xs|
    ensures AlertsOf(xs, parse, i + 1) == AlertsOf(xs, parse, i) + [AlertOf(xs[i], i, parse)]
  {
  }

  lemma AlertsElements(xs: seq<GdacsItem>, parse: string -> Option<real>, n: nat)
    requires n <= |xs|
    ensures |AlertsOf(xs, parse, n)| == n
    ensures forall j :: 0 <= j < n ==> AlertsOf(xs, parse, n)[j] == AlertOf(xs[j], j, parse)
  {
    IndexedElements(xs, (item: GdacsItem, j: nat) => AlertOf(item, j, parse), n);
  }

  // ---------------------------------------------------------------------
  // NASA FIRMS CSV
  // ---------------------------------------------------------------------

  /** The first position of a header, as `headers.index(name)`. */
  function IndexOf(hs: seq<string>, name: string): (r: Option<nat>)
    ensures r.None? <==> name !in hs
    ensures r.Some? ==> r.value < |hs| && hs[r.value] == name
                        && forall j :: 0 <= j < r.value ==> hs[j] != name
    decreases |hs|
  {
    if hs == [] then None
    else if hs[0] == name then Some(0)
    else
      var r := IndexOf(hs[1..], name);
      if r.None? then None else
        assert forall j :: 1 <= j < r.value + 1 ==> hs[j] == hs[1..][j - 1];
        Some(r.value + 1)
  }

  /** Column positions; -1 means the optional column is absent. */
  datatype Columns = Columns(lat: nat, lon: nat, bright: int, frp: int, conf: int, date: int, time: int)

  function OptionalColumn(hs: seq<string>, name: string): int {
    var i := IndexOf(hs, name);
    if i.Some? then i.value else -1
  }

  /** Position i holds the first occurrence of the name. */
  predicate FirstIndex(hs: seq<string>, name: string, i: int) {
    0 <= i < |hs| && hs[i] == name && forall j :: 0 <= j < i ==> hs[j] != name
  }

  /** The columns named in the header line, each at its first occurrence;
      latitude and longitude default to 0 and 1, and every other column
      to -1, which marks it absent. */
  function ColumnsOf(headers: seq<string>): (c: Columns)
    ensures "latitude" !in headers ==> c.lat == 0
    ensures "longitude" !in headers ==> c.lon == 1
    ensures "latitude" in headers ==> FirstIndex(headers, "latitude", c.lat)
    ensures "longitude" in headers ==> FirstIndex(headers, "longitude", c.lon)
    ensures c.bright == -1 <==> "bright_ti4" !in headers
    ensures c.frp == -1 <==> "frp" !in headers
    ensures c.conf == -1 <==> "confidence" !in headers
    ensures c.date == -1 <==> "acq_date" !in headers
    ensures c.time == -1 <==> "acq_time" !in headers
    ensures "bright_ti4" in headers ==> FirstIndex(headers, "bright_ti4", c.bright)
    ensures "frp" in headers ==> FirstIndex(headers, "frp", c.frp)
    ensures "confidence" in headers ==> FirstIndex(headers, "confidence", c.conf)
    ensures "acq_date" in headers ==> FirstIndex(headers, "acq_date", c.date)
    ensures "acq_time" in headers ==> FirstIndex(headers, "acq_time", c.time)
  {
    Columns(IndexOf(headers, "latitude").GetOr(0), IndexOf(headers, "longitude").GetOr(1),
            OptionalColumn(headers, "bright_ti4"), OptionalColumn(headers, "frp"),
            OptionalColumn(headers, "confidence"), OptionalColumn(headers, "acq_date"),
            OptionalColumn(headers, "acq_time"))
  }

  datatype Intensity = Low | Moderate | High | Extreme

  /** Brightness temperature and radiative power bands. */
  function FireIntensity(brightness: real, frp: real): (r: Intensity)
    ensures r == Extreme <==> brightness > 400.0 || frp > 100.0
    ensures r == Low <==> brightness <= 320.0 && frp <= 20.0
    ensures r == High <==> !(brightness > 400.0 || frp > 100.0) && (brightness > 350.0 || frp > 50.0)
    ensures r == Moderate <==> && !(brightness > 400.0 || frp > 100.0) && !(brightness > 350.0 || frp > 50.0)
                               && (brightness > 320.0 || frp > 20.0)
  {
    if brightness > 400.0 || frp > 100.0 then Extreme
    else if brightness > 350.0 || frp > 50.0 then High
    else if brightness > 320.0 || frp > 20.0 then Moderate
    else Low
  }

  datatype Fire = Fire(latitude: real, longitude: real, brightness: real, frp: real,
                       confidence: string, intensity: Intensity, distanceKm: Option<real>,
                       acqDate: Option<string>, acqTime: Option<string>)

  /** The user's point, present only when both coordinates are given. */
  function UserPoint(userLat: Option<real>, userLon: Option<real>): Option<(real, real)> {
    if userLat.Some? && userLon.Some? then Some((userLat.value, userLon.value)) else None
  }

  /** Every column the row reads is in range (an absent column, -1, reads nothing). */
  predicate InRange(parts: seq<string>, c: Columns) {
    c.lat < |parts| && c.lon < |parts| && c.bright < |parts| && c.frp < |parts|
    && c.conf < |parts| && c.date < |parts| && c.time < |parts|
  }

  /** A numeric optional column: its default when absent or empty, else the parsed cell. */
  function OptionalNumber(parts: seq<string>, idx: int, default: real,
                          parse: string -> Option<real>): Option<real>
    requires idx < |parts|
  {
    if idx >= 0 && parts[idx] != "" then parse(parts[idx]) else Some(default)
  }

  function OptionalText(parts: seq<string>, idx: int): Option<string>
    requires idx < |parts|
  {
    if idx >= 0 then Some(parts[idx]) else None
  }

  /** One data line: None when it raises ValueError or IndexError, and the row is skipped. */
  function FireRow(line: string, c: Columns, user: Option<(real, real)>,
                   distance: (real, real, real, real) -> real,
                   parse: string -> Option<real>): (f: Option<Fire>)
    ensures var parts := Split(line, ',');
            f.Some? <==> && InRange(parts, c)
                         && parse(parts[c.lat]).Some? && parse(parts[c.lon]).Some?
                         && OptionalNumber(parts, c.bright, 300.0, parse).Some?
                         && OptionalNumber(parts, c.frp, 0.0, parse).Some?
    ensures var parts := Split(line, ',');
            f.Some? ==> && InRange(parts, c)
                        && f.value.brightness == OptionalNumber(parts, c.bright, 300.0, parse).value
                        && f.value.frp == OptionalNumber(parts, c.frp, 0.0, parse).value
                        && f.value.confidence == OptionalText(parts, c.conf).GetOr("nominal")
                        && f.value.acqDate == OptionalText(parts, c.date)
                        && f.value.acqTime == OptionalText(parts, c.time)
    ensures f.Some? ==> && InRange(Split(line, ','), c)
                        && parse(Split(line, ',')[c.lat]) == Some(f.value.latitude)
                        && parse(Split(line, ',')[c.lon]) == Some(f.value.longitude)
                        && f.value.intensity == FireIntensity(f.value.brightness, f.value.frp)
    ensures f.Some? ==>
              var d := if user.Some? then distance(user.value.0, user.value.1, f.value.latitude, f.value.longitude)
                       else 0.0;
              f.value.distanceKm == if user.Some? && d != 0.0 then Some(Round(d, 1)) else None
  {
    var parts := Split(line, ',');
    if !InRange(parts, c) then None
    else
      var lat := parse(parts[c.lat]);
      var lon := parse(parts[c.lon]);
      var brightness := OptionalNumber(parts, c.bright, 300.0, parse);
      var frp := OptionalNumber(parts, c.frp, 0.0, parse);
      if lat.None? || lon.None? || brightness.None? || frp.None? then None
      else
        var d := if user.Some? then distance(user.value.0, user.value.1, lat.value, lon.value) else 0.0;
        Some(Fire(lat.value, lon.value, brightness.value, frp.value,
                  OptionalText(parts, c.conf).GetOr("nominal"),
                  FireIntensity(brightness.value, frp.value),
                  if user.Some? && d != 0.0 then Some(Round(d, 1)) else None,
                  OptionalText(parts, c.date), OptionalText(parts, c.time)))
  }

  /** With neither brightness nor radiative power columns a fire is 'low'. */
  lemma DefaultsGiveLow(line: string, c: Columns, user: Option<(real, real)>,
                        distance: (real, real, real, real) -> real, parse: string -> Option<real>)
    requires c.bright == -1 && c.frp == -1
    ensures var f := FireRow(line, c, user, distance, parse);
            f.Some? ==> f.value.brightness == 300.0 && f.value.frp == 0.0 && f.value.intensity == Low
  {
  }

  /** The fires of the data lines that parse, in line order. */
  function FireRows(lines: seq<string>, c: Columns, user: Option<(real, real)>,
                    distance: (real, real, real, real) -> real,
                    parse: string -> Option<real>): seq<Fire>
    decreases |lines|
  {
    if lines == [] then []
    else
      var last := FireRow(lines[|lines| - 1], c, user, distance, parse);
      FireRows(lines[..|lines| - 1], c, user, distance, parse)
      + (if last.Some? then [last.value] else [])
  }

  lemma {:induction false} FireRowsMembers(lines: seq<string>, c: Columns, user: Option<(real, real)>,
                                           distance: (real, real, real, real) -> real,
                                           parse: string -> Option<real>, f: Fire)
    ensures f in FireRows(lines, c, user, distance, parse) <==>
              exists i :: 0 <= i < |lines| && FireRow(lines[i], c, user, distance, parse) == Some(f)
    decreases |lines|
  {
    if lines != [] {
      var init := lines[..|lines| - 1];
      FireRowsMembers(init, c, user, distance, parse, f);
      var last := FireRow(lines[|lines| - 1], c, user, distance, parse);
      assert f in FireRows(lines, c, user, distance, parse)
         <==> f in FireRows(init, c, user, distance, parse) || last == Some(f);
      forall i | 0 <= i < |init|
        ensures init[i] == lines[i]
      {
      }
    }
  }

  /** At most one fire per line. */
  lemma {:induction false} FireRowsLength(lines: seq<string>, c: Columns, user: Option<(real, real)>,
                                          distance: (real, real, real, real) -> real,
                                          parse: string -> Option<real>)
    ensures |FireRows(lines, c, user, distance, parse)| <= |lines|
    decreases |lines|
  {
    if lines != [] {
      FireRowsLength(lines[..|lines| - 1], c, user, distance, parse);
    }
  }

  /** `distance_km or 99999`: a missing distance and a rounded distance of 0.0
      are both falsy. */
  function DistanceKey(f: Fire): real {
    if f.distanceKm.Some? && f.distanceKm.value != 0.0 then f.distanceKm.value else 99999.0
  }

  const MaxFireRows: nat := 100

  /** The row loop: each data line converted in order, bad lines skipped. */
  method CollectFires(data: seq<string>, c: Columns, user: Option<(real, real)>,
                      distance: (real, real, real, real) -> real, parse: string -> Option<real>)
    returns (fires: seq<Fire>)
    ensures fires == FireRows(data, c, user, distance, parse)
  {
    fires := [];
    var i := 0;
    while i < |data|
      invariant 0 <= i <= |data|
      invariant fires == FireRows(data[..i], c, user, distance, parse)
    {
      assert data[..i + 1][..i] == data[..i];
      var f := FireRow(data[i], c, user, distance, parse);
      if f.Some? {
        fires := fires + [f.value];
      }
      i := i + 1;
    }
    assert data[..i] == data;
  }


  function FirmsLines(csvText: string): seq<string> {
    Split(Strip(csvText), '\n')
  }

  /** The fires of a FIRMS CSV text: header lookup, at most 100 data lines,
      bad lines skipped, then a stable sort by distance when the user's point
      is known. */
  method ParseFirmsCsv(csvText: string, userLat: Option<real>, userLon: Option<real>,
                       distance: (real, real, real, real) -> real, parse: string -> Option<real>)
    returns (fires: seq<Fire>)
    ensures var lines := FirmsLines(csvText);
            var user := UserPoint(userLat, userLon);
            && (|lines| < 2 ==> fires == [])
            && (|lines| >= 2 ==>
                  var rows := FireRows(lines[1..Min(|lines|, MaxFireRows + 1)],
                                       ColumnsOf(Split(lines[0], ',')), user, distance, parse);
                  fires == if user.Some? then Sorting.SortBy(rows, DistanceKey) else rows)
    ensures |fires| <= MaxFireRows
  {
    var lines := FirmsLines(csvText);
    if |lines| < 2 {
      return [];
    }
    var c := ColumnsOf(Split(lines[0], ','));
    var user := UserPoint(userLat, userLon);
    var data := lines[1..Min(|lines|, MaxFireRows + 1)];
    fires := CollectFires(data, c, user, distance, parse);
    FireRowsLength(data, c, user, distance, parse);
    if user.Some? {
      Sorting.SortBySortedPermutation(fires, DistanceKey);
      fires := Sorting.SortBy(fires, DistanceKey);
    }
  }

  /** The sorted fires are the parsed ones, nearest first, equal keys in line
      order; a fire exactly at the user's point has no distance and so sorts
      as if it were 99999 km away. */
  lemma FirmsSortedByDistance(rows: seq<Fire>)
    ensures Sorting.SortedBy(Sorting.SortBy(rows, DistanceKey), DistanceKey)
    ensures multiset(Sorting.SortBy(rows, DistanceKey)) == multiset(rows)
    ensures forall v :: Sorting.WithKey(Sorting.SortBy(rows, DistanceKey), DistanceKey, v)
                        == Sorting.WithKey(rows, DistanceKey, v)
  {
    Sorting.SortBySortedPermutation(rows, DistanceKey);
    forall v
      ensures Sorting.WithKey(Sorting.SortBy(rows, DistanceKey), DistanceKey, v)
              == Sorting.WithKey(rows, DistanceKey, v)
    {
      Sorting.SortByStable(rows, DistanceKey, v);
    }
  }

  /** A fire whose computed distance is 0 gets no distance, and its sort key is 99999. */
  lemma ZeroDistanceSortsFar(line: string, c: Columns, user: (real, real),
                             distance: (real, real, real, real) -> real, parse: string -> Option<real>)
    requires var f := FireRow(line, c, Some(user), distance, parse);
             f.Some? && distance(user.0, user.1, f.value.latitude, f.value.longitude) == 0.0
    ensures var f := FireRow(line, c, Some(user), distance, parse);
            f.value.distanceKm.None? && DistanceKey(f.value) == 99999.0
  {
  }

  /** A fire closer than 0.05 km (but not at the point) is stored at distance
      0.0, which is falsy, so it too sorts as if it were 99999 km away. */
  lemma NearDistanceSortsFar(line: string, c: Columns, user: (real, real),
                             distance: (real, real, real, real) -> real, parse: string -> Option<real>)
    requires var f := FireRow(line, c, Some(user), distance, parse);
             f.Some? && var d := distance(user.0, user.1, f.value.latitude, f.value.longitude);
                        d != 0.0 && -0.05 < d < 0.05
    ensures var f := FireRow(line, c, Some(user), distance, parse);
            f.value.distanceKm == Some(0.0) && DistanceKey(f.value) == 99999.0
  {
    var f := FireRow(line, c, Some(user), distance, parse);
    var d := distance(user.0, user.1, f.value.latitude, f.value.longitude);
    assert Scale(1) == 10.0;
    RoundByNearZero(d, 10.0);
  }

  // ---------------------------------------------------------------------
  // Coastal India
  // ---------------------------------------------------------------------

  /** An inclusive latitude/longitude box. */
  datatype GeoBox = GeoBox(minLat: real, maxLat: real, minLon: real, maxLon: real)

  const CoastalBoxes: seq<GeoBox> := [
    GeoBox(8.0, 15.0, 74.0, 80.0),   // Kerala and Karnataka coast
    GeoBox(12.0, 22.0, 80.0, 88.0),  // east coast, Tamil Nadu to Odisha
    GeoBox(18.0, 24.0, 66.0, 74.0),  // Gujarat coast
    GeoBox(15.0, 20.0, 72.0, 76.0)]  // Maharashtra coast

  predicate InBox(b: GeoBox, lat: real, lon: real) {
    b.minLat <= lat <= b.maxLat && b.minLon <= lon <= b.maxLon
  }

  predicate Coastal(lat: real, lon: real) {
    exists i :: 0 <= i < |CoastalBoxes| && InBox(CoastalBoxes[i], lat, lon)
  }

  method IsCoastalIndia(lat: real, lon: real) returns (coastal: bool)
    ensures coastal <==> Coastal(lat, lon)
  {
    var i := 0;
    while i < |CoastalBoxes|
      invariant 0 <= i <= |CoastalBoxes|
      invariant forall j :: 0 <= j < i ==> !InBox(CoastalBoxes[j], lat, lon)
    {
      var b := CoastalBoxes[i];
      if b.minLat <= lat <= b.maxLat && b.minLon <= lon <= b.maxLon {
        return true;
      }
      i := i + 1;
    }
    return false;
  }

  // ---------------------------------------------------------------------
  // IMD-style warnings
  // ---------------------------------------------------------------------

  datatype WeatherCondition = WeatherCondition(main: Option<string>)

  /** The current-weather fields the rules read; `conditions` is the
      'weather' list, None when the key is absent. */
  datatype Weather = Weather(temp: Option<real>, humidity: Option<real>, windSpeed: Option<real>,
                             conditions: Option<seq<WeatherCondition>>)

  datatype ImdKind = HeatWave | HeatAdvisory | Thunderstorm | HighWind | CycloneWatch | FloodWatch | ColdWave

  function ImdRank(k: ImdKind): nat {
    match k
    case HeatWave => 0
    case HeatAdvisory => 1
    case Thunderstorm => 2
    case HighWind => 3
    case CycloneWatch => 4
    case FloodWatch => 5
    case ColdWave => 6
  }

  datatype ImdWarning = ImdWarning(kind: ImdKind, severity: Level, validHours: nat,
                                   instructions: seq<string>)

  /** Issued warnings, or the IndexError of an empty 'weather' list. */
  datatype ImdOutcome = Issued(warnings: seq<ImdWarning>) | Failed

  function Temp(w: Weather): real { w.temp.GetOr(25.0) }
  function Humidity(w: Weather): real { w.humidity.GetOr(50.0) }
  /** Wind in km/h, from m/s. */
  function WindKmh(w: Weather): real { w.windSpeed.GetOr(0.0) * 3.6 }

  function ConditionText(w: Weather): string
    requires w.conditions != Some([])
  {
    var cs := w.conditions.GetOr([WeatherCondition(None)]);
    Lower(cs[0].main.GetOr(""))
  }

  predicate CycloneSeason(month: int) { month in {5, 6, 10, 11, 12} }
  predicate MonsoonSeason(month: int) { month in {6, 7, 8, 9} }
  predicate ColdSeason(month: int) { month in {12, 1, 2} }

  /** Whether the rule for kind k fires, given the answer of the coastal test. */
  predicate Fires(k: ImdKind, w: Weather, cond: string, month: int, coastal: bool) {
    match k
    case HeatWave => Temp(w) > 40.0
    case HeatAdvisory => 35.0 < Temp(w) <= 40.0
    case Thunderstorm => Contains(cond, "rain") || Contains(cond, "thunder") || Contains(cond, "storm")
    case HighWind => WindKmh(w) > 50.0
    case CycloneWatch => CycloneSeason(month) && coastal && (WindKmh(w) > 40.0 || Contains(cond, "storm"))
    case FloodWatch => MonsoonSeason(month) && Humidity(w) > 80.0 && Contains(cond, "rain")
    case ColdWave => Temp(w) < 10.0 && ColdSeason(month)
  }

  /** Whether a warning of kind k is issued at (lat, lon) for these readings. */
  predicate Issues(k: ImdKind, w: Weather, cond: string, month: int, lat: real, lon: real) {
    Fires(k, w, cond, month, Coastal(lat, lon))
  }

  function ValidHours(k: ImdKind): nat {
    match k
    case HeatWave => 24
    case HeatAdvisory => 12
    case Thunderstorm => 6
    case HighWind => 6
    case CycloneWatch => 48
    case FloodWatch => 24
    case ColdWave => 24
  }

  /** The colour a warning of kind k takes for these readings. */
  function ImdSeverity(k: ImdKind, w: Weather): Level {
    match k
    case HeatWave => if Temp(w) > 45.0 then Red else Orange
    case HeatAdvisory => Yellow
    case Thunderstorm => Orange
    case HighWind => if WindKmh(w) > 70.0 then Orange else Yellow
    case CycloneWatch => Orange
    case FloodWatch => Yellow
    case ColdWave => if Temp(w) > 4.0 then Yellow else Orange
  }

  const HeatWaveSteps: seq<string> := ["Stay indoors during peak hours", "Stay hydrated", "Avoid outdoor work"]
  const HeatAdvisorySteps: seq<string> := ["Drink plenty of water", "Limit outdoor activities"]
  const ThunderstormSteps: seq<string> :=
    ["Avoid open areas", "Stay away from trees", "Do not use electronic devices outdoors"]
  const HighWindSteps: seq<string> :=
    ["Secure loose objects", "Avoid driving if possible", "Stay away from windows"]
  const CycloneWatchSteps: seq<string> :=
    ["Keep emergency kit ready", "Monitor official IMD updates", "Know your evacuation route"]
  const FloodWatchSteps: seq<string> :=
    ["Avoid low-lying areas", "Do not cross flooded roads", "Keep documents safe"]
  const ColdWaveSteps: seq<string> := ["Wear warm clothing", "Check on elderly neighbors", "Keep heating safe"]

  function ImdInstructions(k: ImdKind): seq<string> {
    match k
    case HeatWave => HeatWaveSteps
    case HeatAdvisory => HeatAdvisorySteps
    case Thunderstorm => ThunderstormSteps
    case HighWind => HighWindSteps
    case CycloneWatch => CycloneWatchSteps
    case FloodWatch => FloodWatchSteps
    case ColdWave => ColdWaveSteps
  }

  function WarningOf(k: ImdKind, w: Weather): ImdWarning {
    ImdWarning(k, ImdSeverity(k, w), ValidHours(k), ImdInstructions(k))
  }

  predicate HasKind(ws: seq<ImdWarning>, k: ImdKind) {
    exists i :: 0 <= i < |ws| && ws[i].kind == k
  }

  /** Well-formed warnings: one per kind at most, in rule order, each with
      the colour, validity and instructions of its kind. */
  predicate WellFormed(ws: seq<ImdWarning>, w: Weather) {
    && (forall i, j :: 0 <= i < j < |ws| ==> ImdRank(ws[i].kind) < ImdRank(ws[j].kind))
    && (forall i :: 0 <= i < |ws| ==> ws[i] == WarningOf(ws[i].kind, w))
  }

  lemma HasKindAppend(ws: seq<ImdWarning>, x: ImdWarning, k: ImdKind)
    ensures HasKind(ws + [x], k) <==> HasKind(ws, k) || x.kind == k
  {
    var r := ws + [x];
    if HasKind(r, k) {
      var i :| 0 <= i < |r| && r[i].kind == k;
      if i < |ws| { assert ws[i].kind == k; }
    }
    if HasKind(ws, k) {
      var i :| 0 <= i < |ws| && ws[i].kind == k;
      assert r[i].kind == k;
    }
    assert r[|ws|] == x;
  }

  lemma WellFormedAppend(ws: seq<ImdWarning>, k: ImdKind, w: Weather)
    requires WellFormed(ws, w)
    requires forall i :: 0 <= i < |ws| ==> ImdRank(ws[i].kind) < ImdRank(k)
    ensures WellFormed(ws + [WarningOf(k, w)], w)
    ensures forall i :: 0 <= i < |ws| + 1 ==> ImdRank((ws + [WarningOf(k, w)])[i].kind) <= ImdRank(k)
  {
    var r := ws + [WarningOf(k, w)];
    assert forall i :: 0 <= i < |ws| ==> r[i] == ws[i];
  }

  /** Append kind k's warning when its rule fires: the warnings gain kind k
      exactly when its rule fires, and no other kind. */
  method AddIf(ws: seq<ImdWarning>, k: ImdKind, w: Weather, cond: string, month: int, coastal: bool)
    returns (r: seq<ImdWarning>)
    requires WellFormed(ws, w)
    requires forall i :: 0 <= i < |ws| ==> ImdRank(ws[i].kind) < ImdRank(k)
    ensures WellFormed(r, w)
    ensures forall i :: 0 <= i < |r| ==> ImdRank(r[i].kind) <= ImdRank(k)
    ensures forall k' :: HasKind(r, k') <==> HasKind(ws, k') || (k' == k && Fires(k, w, cond, month, coastal))
  {
    if Fires(k, w, cond, month, coastal) {
      WellFormedAppend(ws, k, w);
      r := ws + [WarningOf(k, w)];
      forall k' ensures HasKind(r, k') <==> HasKind(ws, k') || k' == k {
        HasKindAppend(ws, WarningOf(k, w), k');
      }
    } else {
      r := ws;
    }
  }

  /** The warnings for the current weather at (lat, lon) in the given month. */
  method GenerateImdWarnings(weather: Option<Weather>, lat: real, lon: real, month: int)
    returns (outcome: ImdOutcome)
    ensures weather.None? ==> outcome == Issued([])
    ensures weather.Some? && weather.value.conditions == Some([]) ==> outcome == Failed
    ensures weather.Some? && weather.value.conditions != Some([]) ==>
              && outcome.Issued?
              && WellFormed(outcome.warnings, weather.value)
              && forall k :: HasKind(outcome.warnings, k) <==>
                   Issues(k, weather.value, ConditionText(weather.value), month, lat, lon)
  {
    if weather.None? {
      return Issued([]);
    }
    var w := weather.value;
    if w.conditions == Some([]) {
      return Failed;
    }
    var cond := ConditionText(w);
    var coastal := IsCoastalIndia(lat, lon);
    var ws: seq<ImdWarning> := [];
    ws := AddIf(ws, HeatWave, w, cond, month, coastal);
    ws := AddIf(ws, HeatAdvisory, w, cond, month, coastal);
    ws := AddIf(ws, Thunderstorm, w, cond, month, coastal);
    ws := AddIf(ws, HighWind, w, cond, month, coastal);
    ws := AddIf(ws, CycloneWatch, w, cond, month, coastal);
    ws := AddIf(ws, FloodWatch, w, cond, month, coastal);
    ws := AddIf(ws, ColdWave, w, cond, month, coastal);
    forall k ensures HasKind(ws, k) <==> Fires(k, w, cond, month, coastal) {
      assert !HasKind([], k);
    }
    return Issued(ws);
  }

  /** The two heat warnings never come together, and at 45 degrees or below a
      heat wave is Orange. */
  lemma HeatWarningsExclusive(w: Weather, cond: string, month: int, lat: real, lon: real)
    ensures !(Issues(HeatWave, w, cond, month, lat, lon) && Issues(HeatAdvisory, w, cond, month, lat, lon))
    ensures Issues(HeatWave, w, cond, month, lat, lon) ==>
              (ImdSeverity(HeatWave, w) == Red <==> Temp(w) > 45.0)
  {
  }
}
