/** The master playlist of an HLS job, and a reader for it that follows RFC 8216: lines (section 4.1),
    attribute lists (section 4.2), EXT-X-MEDIA and EXT-X-STREAM-INF (sections 4.3.4.1 and 4.3.4.2).

    RoundTrip says exactly for which variant lists a player gets back what was written.
*/
module Playlist {

  import opened Wrappers
  import opened Text
  import Timestamps

  datatype Variant = Variant(name: string, width: nat, height: nat, bandwidth: nat)

  /** What the writer knows of the source; the frame rate is the text it prints for it. */
  datatype Source = Source(frameRate: Option<string>, hasAudio: bool)

  /** A player's view of the playlist. */
  datatype Stream = Stream(bandwidth: nat, average: Option<nat>, width: nat, height: nat,
                           frameRate: Option<string>, codecs: string, audio: Option<string>, uri: string)

  /** An audio rendition: the group it belongs to and its playlist, if it has one of its own. */
  datatype Group = Group(id: string, uri: Option<string>)

  datatype Master = Master(audioGroups: seq<Group>, streams: seq<Stream>)

  // ---------- Decimal numbers ----------

  predicate AllDigits(s: string) {
    Timestamps.AllDigits(s)
  }

  function Decimal(n: nat): (s: string)
    ensures s != "" && AllDigits(s)
  {
    if n < 10 then [Timestamps.DigitChar(n)] else Decimal(n / 10) + [Timestamps.DigitChar(n % 10)]
  }

  function ReadDecimal(s: string): Option<nat> {
    if s != "" && AllDigits(s) then Some(Timestamps.Value(s)) else None
  }

  lemma {:induction false} ReadDecimalBack(n: nat)
    ensures ReadDecimal(Decimal(n)) == Some(n)
  {
    var s := Decimal(n);
    if n >= 10 {
      ReadDecimalBack(n / 10);
      assert s[..|s| - 1] == Decimal(n / 10);
    } else {
      assert s[..|s| - 1] == "" && Timestamps.Value("") == 0;
    }
  }

  // ---------- Lines ----------

  /** Lines end with a line feed; a last line without one counts too. */
  function Lines(text: string): (lines: seq<string>)
    ensures forall l :: l in lines ==> '\n' !in l
    decreases |text|
  {
    if text == "" then []
    else
      var n := Find(text, '\n');
      if n == |text| then [text[..n]] else [text[..n]] + Lines(text[n + 1..])
  }

  function Line(line: string): string {
    line + "\n"
  }

  lemma LinesStep(line: string, rest: string)
    requires '\n' !in line
    ensures Lines(Line(line) + rest) == [line] + Lines(rest)
  {
    var text := line + "\n" + rest;
    assert text == line + ("\n" + rest);
    FindIn(line, '\n', "\n" + rest);
    assert text[..|line|] == line && text[|line| + 1..] == rest;
  }

  // ---------- Attribute lists ----------

  datatype Value = Word(text: string) | Quoted(text: string)

  datatype Attribute = Attribute(name: string, value: Value)

  /** An attribute that the grammar of section 4.2 allows. */
  predicate WellFormed(a: Attribute) {
    && '=' !in a.name && '\n' !in a.name && '\n' !in a.value.text
    && (a.value.Word? ==> ',' !in a.value.text && '\"' !in a.value.text)
    && (a.value.Quoted? ==> '\"' !in a.value.text)
  }

  function ValueText(v: Value): string {
    match v
    case Word(text) => text
    case Quoted(text) => "\"" + text + "\""
  }

  function AttributeText(a: Attribute): string {
    a.name + "=" + ValueText(a.value)
  }

  function ListText(attributes: seq<Attribute>): string {
    if attributes == [] then ""
    else if |attributes| == 1 then AttributeText(attributes[0])
    else AttributeText(attributes[0]) + "," + ListText(attributes[1..])
  }

  /** One value, and the text after it. */
  function ReadValue(s: string): (r: Option<(Value, string)>)
    ensures r.Some? ==> |r.value.1| <= |s|
  {
    if s != "" && s[0] == '\"' then
      var n := Find(s[1..], '\"');
      if n == |s| - 1 then None else Some((Quoted(s[1..][..n]), s[1..][n + 1..]))
    else
      var n := Find(s, ',');
      Some((Word(s[..n]), s[n..]))
  }

  function ReadAttributes(s: string): Option<seq<Attribute>>
    decreases |s|
  {
    var n := Find(s, '=');
    if n == |s| then None
    else
      match ReadValue(s[n + 1..])
      case None => None
      case Some((value, rest)) =>
        var a := Attribute(s[..n], value);
        if rest == "" then Some([a])
        else if rest[0] != ',' then None
        else
          match ReadAttributes(rest[1..])
          case None => None
          case Some(more) => Some([a] + more)
  }

  lemma ReadWordBack(text: string, rest: string)
    requires ',' !in text && '\"' !in text && (rest == "" || rest[0] == ',')
    ensures ReadValue(text + rest) == Some((Word(text), rest))
  {
    var s := text + rest;
    FindIn(text, ',', rest);
    assert s[|text|..] == rest && s[..|text|] == text;
    assert text != "" ==> s[0] == text[0] && text[0] in text;
  }

  lemma ReadQuotedBack(text: string, rest: string)
    requires '\"' !in text
    ensures ReadValue("\"" + text + "\"" + rest) == Some((Quoted(text), rest))
  {
    var inside := text + ['\"'] + rest;
    assert "\"" + text + "\"" + rest == ['\"'] + inside && (['\"'] + inside)[1..] == inside;
    SplitAt(text, '\"', rest);
  }

  lemma ReadValueBack(v: Value, rest: string)
    requires WellFormed(Attribute("", v))
    requires rest == "" || rest[0] == ','
    ensures ReadValue(ValueText(v) + rest) == Some((v, rest))
  {
    match v
    case Word(text) => ReadWordBack(text, rest);
    case Quoted(text) => ReadQuotedBack(text, rest);
  }

  lemma ReadOne(a: Attribute, rest: string)
    requires WellFormed(a) && (rest == "" || rest[0] == ',')
    ensures var s, n := AttributeText(a) + rest, |a.name|;
      Find(s, '=') == n < |s| && s[..n] == a.name && ReadValue(s[n + 1..]) == Some((a.value, rest))
  {
    var s, value := AttributeText(a) + rest, ValueText(a.value) + rest;
    assert s == a.name + ("=" + value);
    FindIn(a.name, '=', "=" + value);
    assert s[..|a.name|] == a.name && s[|a.name| + 1..] == value;
    ReadValueBack(a.value, rest);
  }

  lemma ReadLast(a: Attribute)
    requires WellFormed(a)
    ensures ReadAttributes(AttributeText(a)) == Some([a])
  {
    ReadOne(a, "");
    assert AttributeText(a) + "" == AttributeText(a);
  }

  lemma ReadNext(a: Attribute, more: string, list: seq<Attribute>)
    requires WellFormed(a) && ReadAttributes(more) == Some(list)
    ensures ReadAttributes(AttributeText(a) + ("," + more)) == Some([a] + list)
  {
    ReadOne(a, "," + more);
    assert ("," + more)[1..] == more;
  }

  /** Commas inside quotes do not split an attribute list. */
  lemma {:induction false} ReadAttributesBack(attributes: seq<Attribute>)
    requires attributes != []
    requires forall i :: 0 <= i < |attributes| ==> WellFormed(attributes[i])
    ensures ReadAttributes(ListText(attributes)) == Some(attributes)
  {
    var a, rest := attributes[0], attributes[1..];
    assert attributes == [a] + rest;
    if rest == [] {
      ReadLast(a);
      assert |attributes| == 1 && attributes == [a];
    } else {
      ReadAttributesBack(rest);
      ReadNext(a, ListText(rest), rest);
      Associative(AttributeText(a), ",", ListText(rest));
    }
  }

  /** The value of the first attribute of that name. */
  function Lookup(attributes: seq<Attribute>, name: string): Option<Value> {
    if attributes == [] then None
    else if attributes[0].name == name then Some(attributes[0].value)
    else Lookup(attributes[1..], name)
  }

  // ---------- Reading a master playlist ----------

  const HEADER := "#EXTM3U"
  const STREAM := "#EXT-X-STREAM-INF:"
  const MEDIA := "#EXT-X-MEDIA:"
  const VERSION := "#EXT-X-VERSION:7"
  const INDEPENDENT := "#EXT-X-INDEPENDENT-SEGMENTS"

  /** A URI line: neither blank nor a tag or comment. */
  predicate IsUri(line: string) {
    line != "" && line[0] != '#' && '\n' !in line
  }

  function Number(v: Option<Value>): Option<nat> {
    if v.Some? && v.value.Word? then ReadDecimal(v.value.text) else None
  }

  function TextOf(v: Option<Value>): Option<string> {
    if v.Some? then Some(v.value.text) else None
  }

  /** A decimal-resolution: two numbers with an x between them. */
  function Resolution(v: Option<Value>): Option<(nat, nat)> {
    match TextOf(v)
    case None => None
    case Some(text) =>
      var n := Find(text, 'x');
      if n == |text| then None
      else
        match (ReadDecimal(text[..n]), ReadDecimal(text[n + 1..]))
        case (Some(w), Some(h)) => Some((w, h))
        case _ => None
  }

  function ReadStream(attributes: seq<Attribute>, uri: string): Option<Stream> {
    match (Number(Lookup(attributes, "BANDWIDTH")), Resolution(Lookup(attributes, "RESOLUTION")),
           TextOf(Lookup(attributes, "CODECS")))
    case (Some(bandwidth), Some((w, h)), Some(codecs)) =>
      Some(Stream(bandwidth, Number(Lookup(attributes, "AVERAGE-BANDWIDTH")), w, h,
                  TextOf(Lookup(attributes, "FRAME-RATE")), codecs,
                  TextOf(Lookup(attributes, "AUDIO")), uri))
    case _ => None
  }

  /** The group an EXT-X-MEDIA tag declares, if it is one for audio. */
  function AudioGroup(attributes: seq<Attribute>): seq<Group> {
    match (Lookup(attributes, "TYPE"), TextOf(Lookup(attributes, "GROUP-ID")))
    case (Some(Word("AUDIO")), Some(id)) => [Group(id, TextOf(Lookup(attributes, "URI")))]
    case _ => []
  }

  function AddGroups(groups: seq<Group>, m: Option<Master>): Option<Master> {
    if m.None? then None else Some(m.value.(audioGroups := groups + m.value.audioGroups))
  }

  function AddStream(s: Stream, m: Option<Master>): Option<Master> {
    if m.None? then None else Some(m.value.(streams := [s] + m.value.streams))
  }

  /** The lines after the header. The line after a stream tag must be its URI. */
  function ReadBody(lines: seq<string>): (m: Option<Master>)
    ensures m.Some? ==> forall s :: s in m.value.streams ==> IsUri(s.uri)
  {
    if lines == [] then Some(Master([], []))
    else
      var line := lines[0];
      match (After(STREAM, line), After(MEDIA, line))
      case (Some(list), _) =>
        if |lines| == 1 || !IsUri(lines[1]) then None
        else
          (match ReadAttributes(list)
          case None => None
          case Some(attributes) =>
            match ReadStream(attributes, lines[1])
            case None => None
            case Some(s) => AddStream(s, ReadBody(lines[2..])))
      case (None, Some(list)) =>
        (match ReadAttributes(list)
        case None => None
        case Some(attributes) => AddGroups(AudioGroup(attributes), ReadBody(lines[1..])))
      case (None, None) =>
        if line == "" || line[0] == '#' then ReadBody(lines[1..]) else None
  }

  function ReadMaster(text: string): (m: Option<Master>)
    ensures m.Some? ==> forall s :: s in m.value.streams ==> IsUri(s.uri)
  {
    var lines := Lines(text);
    if lines == [] || lines[0] != HEADER then None else ReadBody(lines[1..])
  }

  // ---------- Writing it ----------

  function Codecs(src: Source): string {
    if src.hasAudio then "avc1.4d4028,mp4a.40.2" else "avc1.4d4028"
  }

  /** The playlist of a variant, relative to the master. */
  function Uri(v: Variant): string {
    v.name + "/playlist.m3u8"
  }

  /** What a player is to be told about a variant. */
  function Offer(src: Source, v: Variant): Stream {
    Stream(v.bandwidth, Some(v.bandwidth), v.width, v.height, src.frameRate, Codecs(src),
           if src.hasAudio then Some("audio") else None, Uri(v))
  }

  function Offers(src: Source, variants: seq<Variant>): seq<Stream> {
    if variants == [] then [] else [Offer(src, variants[0])] + Offers(src, variants[1..])
  }

  function Wanted(src: Source, variants: seq<Variant>): Master {
    Master(Groups(src), Offers(src, variants))
  }

  /** The variant back from what a player read. */
  function Recovered(s: Stream): Option<Variant> {
    if |s.uri| >= 14 then Some(Variant(s.uri[..|s.uri| - 14], s.width, s.height, s.bandwidth)) else None
  }

  function GroupAttributes(): seq<Attribute> {
    [Attribute("TYPE", Word("AUDIO")), Attribute("GROUP-ID", Quoted("audio")), Attribute("NAME", Quoted("Audio"))]
  }

  function ChoiceAttributes(): seq<Attribute> {
    [Attribute("DEFAULT", Word("YES")), Attribute("AUTOSELECT", Word("YES")),
     Attribute("URI", Quoted("audio/playlist.m3u8"))]
  }

  function MediaAttributes(): seq<Attribute> {
    GroupAttributes() + ChoiceAttributes()
  }

  function VideoAttributes(v: Variant): seq<Attribute> {
    [Attribute("BANDWIDTH", Word(Decimal(v.bandwidth))), Attribute("AVERAGE-BANDWIDTH", Word(Decimal(v.bandwidth))),
     Attribute("RESOLUTION", Word(Decimal(v.width) + "x" + Decimal(v.height)))]
  }

  function RateAttributes(src: Source): seq<Attribute> {
    if src.frameRate.Some? then [Attribute("FRAME-RATE", Word(src.frameRate.value))] else []
  }

  function CodecAttributes(src: Source): seq<Attribute> {
    [Attribute("CODECS", Quoted(Codecs(src)))] + (if src.hasAudio then [Attribute("AUDIO", Quoted("audio"))] else [])
  }

  function StreamAttributes(src: Source, v: Variant): seq<Attribute> {
    VideoAttributes(v) + (RateAttributes(src) + CodecAttributes(src))
  }

  /** Only digits, points and the x of a resolution. */
  predicate Plain(s: string) {
    forall i :: 0 <= i < |s| ==> Timestamps.IsDigit(s[i]) || s[i] == '.' || s[i] == 'x'
  }

  predicate PlainRate(src: Source) {
    src.frameRate.Some? ==> Plain(src.frameRate.value)
  }

  lemma PlainWellFormed(name: string, text: string)
    requires '=' !in name && '\n' !in name && Plain(text)
    ensures WellFormed(Attribute(name, Word(text)))
  {
  }

  lemma VideoWellFormed(v: Variant)
    ensures forall a :: a in VideoAttributes(v) ==> WellFormed(a)
  {
    var resolution := Decimal(v.width) + "x" + Decimal(v.height);
    assert Plain(resolution);
    PlainWellFormed("BANDWIDTH", Decimal(v.bandwidth));
    PlainWellFormed("AVERAGE-BANDWIDTH", Decimal(v.bandwidth));
    PlainWellFormed("RESOLUTION", resolution);
  }

  lemma CodecsWellFormed(src: Source)
    requires PlainRate(src)
    ensures forall a :: a in RateAttributes(src) ==> WellFormed(a)
    ensures forall a :: a in CodecAttributes(src) ==> WellFormed(a)
  {
    if src.frameRate.Some? {
      PlainWellFormed("FRAME-RATE", src.frameRate.value);
    }
    CodecsClean(src);
    QuotedWellFormed("CODECS", Codecs(src));
    QuotedWellFormed("AUDIO", "audio");
  }

  lemma CodecsClean(src: Source)
    ensures '\"' !in Codecs(src) && '\n' !in Codecs(src)
  {
  }

  lemma QuotedWellFormed(name: string, text: string)
    requires '=' !in name && '\n' !in name && '\"' !in text && '\n' !in text
    ensures WellFormed(Attribute(name, Quoted(text)))
  {
  }

  lemma StreamAttributesWellFormed(src: Source, v: Variant)
    requires PlainRate(src)
    ensures forall i :: 0 <= i < |StreamAttributes(src, v)| ==> WellFormed(StreamAttributes(src, v)[i])
  {
    VideoWellFormed(v);
    CodecsWellFormed(src);
    var rest := RateAttributes(src) + CodecAttributes(src);
    assert forall a :: a in VideoAttributes(v) + rest ==> a in VideoAttributes(v) || a in rest;
  }

  lemma LookupConcat(a: seq<Attribute>, b: seq<Attribute>, name: string)
    ensures Lookup(a + b, name) == if Lookup(a, name).Some? then Lookup(a, name) else Lookup(b, name)
  {
    if a == [] {
      assert a + b == b;
    } else {
      assert (a + b)[1..] == a[1..] + b;
    }
  }

  lemma ResolutionBack(w: nat, h: nat)
    ensures Resolution(Some(Word(Decimal(w) + "x" + Decimal(h)))) == Some((w, h))
  {
    var a, b := Decimal(w), Decimal(h);
    SplitAt(a, 'x', b);
    ReadDecimalBack(w);
    ReadDecimalBack(h);
  }

  lemma VideoLookup(v: Variant, name: string)
    ensures Lookup(VideoAttributes(v), name) ==
      if name == "BANDWIDTH" || name == "AVERAGE-BANDWIDTH" then Some(Word(Decimal(v.bandwidth)))
      else if name == "RESOLUTION" then Some(Word(Decimal(v.width) + "x" + Decimal(v.height)))
      else None
  {
    var a := VideoAttributes(v);
    assert a[1..] == [a[1], a[2]] && [a[1], a[2]][1..] == [a[2]] && [a[2]][1..] == [];
    assert Lookup([a[2]], name) == if name == "RESOLUTION" then Some(a[2].value) else None;
    assert Lookup([a[1], a[2]], name) ==
      if name == "AVERAGE-BANDWIDTH" then Some(a[1].value) else Lookup([a[2]], name);
  }

  lemma CodecLookup(src: Source, name: string)
    ensures Lookup(RateAttributes(src) + CodecAttributes(src), name) ==
      if name == "FRAME-RATE" && src.frameRate.Some? then Some(Word(src.frameRate.value))
      else if name == "CODECS" then Some(Quoted(Codecs(src)))
      else if name == "AUDIO" && src.hasAudio then Some(Quoted("audio"))
      else None
  {
    LookupConcat(RateAttributes(src), CodecAttributes(src), name);
    LookupConcat([Attribute("CODECS", Quoted(Codecs(src)))],
                 if src.hasAudio then [Attribute("AUDIO", Quoted("audio"))] else [], name);
  }

  /** The attributes of a stream tag, by name. */
  function Told(src: Source, v: Variant, name: string): Option<Value> {
    if name == "BANDWIDTH" || name == "AVERAGE-BANDWIDTH" then Some(Word(Decimal(v.bandwidth)))
    else if name == "RESOLUTION" then Some(Word(Decimal(v.width) + "x" + Decimal(v.height)))
    else if name == "FRAME-RATE" && src.frameRate.Some? then Some(Word(src.frameRate.value))
    else if name == "CODECS" then Some(Quoted(Codecs(src)))
    else if name == "AUDIO" && src.hasAudio then Some(Quoted("audio"))
    else None
  }

  lemma StreamLookup(src: Source, v: Variant, name: string)
    ensures Lookup(StreamAttributes(src, v), name) == Told(src, v, name)
  {
    LookupConcat(VideoAttributes(v), RateAttributes(src) + CodecAttributes(src), name);
    VideoLookup(v, name);
    CodecLookup(src, name);
  }

  lemma ReadStreamBack(src: Source, v: Variant, uri: string)
    ensures ReadStream(StreamAttributes(src, v), uri) == Some(Offer(src, v).(uri := uri))
  {
    var attributes := StreamAttributes(src, v);
    StreamLookup(src, v, "BANDWIDTH");
    StreamLookup(src, v, "AVERAGE-BANDWIDTH");
    StreamLookup(src, v, "RESOLUTION");
    StreamLookup(src, v, "FRAME-RATE");
    StreamLookup(src, v, "CODECS");
    StreamLookup(src, v, "AUDIO");
    ReadDecimalBack(v.bandwidth);
    ResolutionBack(v.width, v.height);
  }

  lemma {:induction false} ListTextConcat(a: seq<Attribute>, b: seq<Attribute>)
    requires a != [] && b != []
    ensures ListText(a + b) == ListText(a) + "," + ListText(b)
  {
    assert (a + b)[1..] == a[1..] + b;
    if |a| > 1 {
      ListTextConcat(a[1..], b);
      var x, y, z := AttributeText(a[0]), ListText(a[1..]), ListText(b);
      assert x + "," + (y + "," + z) == (x + "," + y) + "," + z;
    } else {
      assert a + b == [a[0]] + b;
    }
  }

  // ---------- The text ----------

  /** The tag line of a variant. */
  function StreamLine(src: Source, v: Variant): string {
    STREAM + ListText(StreamAttributes(src, v))
  }

  function Entry(src: Source, v: Variant): string {
    Line(StreamLine(src, v)) + Line(Uri(v))
  }

  function Entries(src: Source, variants: seq<Variant>): string {
    if variants == [] then "" else Entry(src, variants[0]) + Entries(src, variants[1..])
  }

  function MediaLine(): string {
    MEDIA + ListText(MediaAttributes())
  }

  function MediaPart(src: Source): string {
    if src.hasAudio then Line(MediaLine()) else ""
  }

  function Preamble(src: Source): string {
    Line(HEADER) + (Line(VERSION) + (Line(INDEPENDENT) + MediaPart(src)))
  }

  function MasterText(src: Source, variants: seq<Variant>): string {
    Preamble(src) + Entries(src, variants)
  }

  // ---------- The round trip ----------

  /** A name that neither breaks its URI line nor turns it into a tag. */
  predicate PlainName(name: string) {
    '\n' !in name && (name == "" || name[0] != '#')
  }

  lemma PlainUri(v: Variant)
    ensures PlainName(v.name) <==> IsUri(Uri(v))
  {
    assert v.name != "" ==> Uri(v)[0] == v.name[0];
    assert forall c :: c in v.name ==> c in Uri(v);
  }

  lemma StreamLineIsOneLine(src: Source, v: Variant)
    requires PlainRate(src)
    ensures '\n' !in StreamLine(src, v)
  {
    StreamAttributesWellFormed(src, v);
    ListIsOneLine(StreamAttributes(src, v));
  }

  lemma {:induction false} ListIsOneLine(attributes: seq<Attribute>)
    requires forall i :: 0 <= i < |attributes| ==> WellFormed(attributes[i])
    ensures '\n' !in ListText(attributes)
  {
    if attributes != [] {
      ListIsOneLine(attributes[1..]);
    }
  }

  /** The body's lines from one variant's entry on. */
  lemma ReadEntry(src: Source, v: Variant, rest: seq<string>)
    requires PlainRate(src) && PlainName(v.name)
    ensures ReadBody([StreamLine(src, v), Uri(v)] + rest) == AddStream(Offer(src, v), ReadBody(rest))
  {
    var list := ListText(StreamAttributes(src, v));
    assert After(STREAM, StreamLine(src, v)) == Some(list);
    StreamAttributesWellFormed(src, v);
    ReadAttributesBack(StreamAttributes(src, v));
    ReadStreamBack(src, v, Uri(v));
    PlainUri(v);
    var lines := [StreamLine(src, v), Uri(v)] + rest;
    assert lines[2..] == rest;
  }

  lemma EntryLines(src: Source, v: Variant, rest: string)
    requires PlainRate(src) && PlainName(v.name)
    ensures Lines(Entry(src, v) + rest) == [StreamLine(src, v), Uri(v)] + Lines(rest)
  {
    StreamLineIsOneLine(src, v);
    PlainUri(v);
    LinesStep(StreamLine(src, v), Line(Uri(v)) + rest);
    LinesStep(Uri(v), rest);
    Associative(Line(StreamLine(src, v)), Line(Uri(v)), rest);
  }

  lemma {:induction false} ReadEntries(src: Source, variants: seq<Variant>)
    requires PlainRate(src) && forall i :: 0 <= i < |variants| ==> PlainName(variants[i].name)
    ensures ReadBody(Lines(Entries(src, variants))) == Some(Master([], Offers(src, variants)))
  {
    if variants != [] {
      var rest := variants[1..];
      ReadEntries(src, rest);
      EntryLines(src, variants[0], Entries(src, rest));
      ReadEntry(src, variants[0], Lines(Entries(src, rest)));
    }
  }

  lemma {:induction false} EntriesLast(src: Source, variants: seq<Variant>, v: Variant)
    ensures Entries(src, variants + [v]) == Entries(src, variants) + Entry(src, v)
  {
    if variants == [] {
      assert variants + [v] == [v] && [v][1..] == [];
      assert Entry(src, v) + "" == Entry(src, v) && "" + Entry(src, v) == Entry(src, v);
    } else {
      assert (variants + [v])[1..] == variants[1..] + [v];
      EntriesLast(src, variants[1..], v);
      Associative(Entry(src, variants[0]), Entries(src, variants[1..]), Entry(src, v));
    }
  }

  lemma EntriesExtended(src: Source, variants: seq<Variant>, n: nat, before: string)
    requires n < |variants|
    ensures before + Entries(src, variants[..n + 1]) == before + Entries(src, variants[..n]) + Entry(src, variants[n])
  {
    assert variants[..n + 1] == variants[..n] + [variants[n]];
    EntriesLast(src, variants[..n], variants[n]);
    Associative(before, Entries(src, variants[..n]), Entry(src, variants[n]));
  }

  lemma MediaWellFormed()
    ensures forall i :: 0 <= i < |MediaAttributes()| ==> WellFormed(MediaAttributes()[i])
  {
    assert forall a :: a in GroupAttributes() ==> WellFormed(a);
    ChoiceWellFormed();
    assert forall a :: a in GroupAttributes() + ChoiceAttributes() ==> a in GroupAttributes() || a in ChoiceAttributes();
  }

  lemma ChoiceWellFormed()
    ensures forall a :: a in ChoiceAttributes() ==> WellFormed(a)
  {
    YesWellFormed("DEFAULT");
    YesWellFormed("AUTOSELECT");
    UriWellFormed();
  }

  lemma YesWellFormed(name: string)
    requires '=' !in name && '\n' !in name
    ensures WellFormed(Attribute(name, Word("YES")))
  {
  }

  lemma UriWellFormed()
    ensures WellFormed(Attribute("URI", Quoted("audio/playlist.m3u8")))
  {
  }

  lemma MediaUri()
    ensures Lookup(MediaAttributes(), "URI") == Some(Quoted("audio/playlist.m3u8"))
  {
    var group, choice := GroupAttributes(), ChoiceAttributes();
    LookupConcat(group, choice, "URI");
    assert group[1..] == [group[1], group[2]] && [group[1], group[2]][1..] == [group[2]];
    assert Lookup([group[2]], "URI") == None && Lookup([group[1], group[2]], "URI") == None;
    assert choice[1..] == [choice[1], choice[2]] && [choice[1], choice[2]][1..] == [choice[2]];
    assert Lookup([choice[2]], "URI") == Some(choice[2].value);
    assert Lookup([choice[1], choice[2]], "URI") == Some(choice[2].value);
  }

  lemma MediaGroup()
    ensures AudioGroup(MediaAttributes()) == [Group("audio", Some("audio/playlist.m3u8"))]
  {
    LookupConcat(GroupAttributes(), ChoiceAttributes(), "TYPE");
    LookupConcat(GroupAttributes(), ChoiceAttributes(), "GROUP-ID");
    assert Lookup(GroupAttributes()[1..], "GROUP-ID") == Some(GroupAttributes()[1].value);
    MediaUri();
  }

  lemma MediaTag(list: string)
    ensures After(STREAM, MEDIA + list) == None && After(MEDIA, MEDIA + list) == Some(list)
  {
    var line := MEDIA + list;
    assert STREAM[7] != MEDIA[7] == line[7];
    assert line[|MEDIA|..] == list;
  }

  lemma ReadMediaTag(attributes: seq<Attribute>, rest: seq<string>)
    requires attributes != [] && forall i :: 0 <= i < |attributes| ==> WellFormed(attributes[i])
    ensures ReadBody([MEDIA + ListText(attributes)] + rest) == AddGroups(AudioGroup(attributes), ReadBody(rest))
  {
    var line := MEDIA + ListText(attributes);
    ReadAttributesBack(attributes);
    MediaTag(ListText(attributes));
    assert ([line] + rest)[0] == line && ([line] + rest)[1..] == rest;
  }

  lemma ReadMedia(rest: seq<string>)
    ensures ReadBody([MediaLine()] + rest) == AddGroups([Group("audio", Some("audio/playlist.m3u8"))], ReadBody(rest))
  {
    MediaWellFormed();
    ReadMediaTag(MediaAttributes(), rest);
    MediaGroup();
  }

  lemma ReadComment(line: string, rest: seq<string>)
    requires line == VERSION || line == INDEPENDENT
    ensures ReadBody([line] + rest) == ReadBody(rest)
  {
    assert STREAM[7] != VERSION[7] && STREAM[7] != INDEPENDENT[7];
    assert MEDIA[7] != VERSION[7] && MEDIA[7] != INDEPENDENT[7];
    assert ([line] + rest)[1..] == rest;
  }

  lemma ReadHeader(rest: string)
    ensures ReadMaster(Line(HEADER) + rest) == ReadBody(Lines(rest))
  {
    LinesStep(HEADER, rest);
    assert ([HEADER] + Lines(rest))[1..] == Lines(rest);
  }

  lemma ReadTagLines(rest: string)
    ensures ReadBody(Lines(Line(VERSION) + (Line(INDEPENDENT) + rest))) == ReadBody(Lines(rest))
  {
    LinesStep(VERSION, Line(INDEPENDENT) + rest);
    LinesStep(INDEPENDENT, rest);
    ReadComment(VERSION, Lines(Line(INDEPENDENT) + rest));
    ReadComment(INDEPENDENT, Lines(rest));
  }

  function Groups(src: Source): seq<Group> {
    if src.hasAudio then [Group("audio", Some("audio/playlist.m3u8"))] else []
  }

  lemma ReadMediaPart(src: Source, rest: string)
    ensures ReadBody(Lines(MediaPart(src) + rest)) == AddGroups(Groups(src), ReadBody(Lines(rest)))
  {
    if src.hasAudio {
      MediaIsOneLine();
      LinesStep(MediaLine(), rest);
      ReadMedia(Lines(rest));
    } else {
      assert MediaPart(src) + rest == rest;
      var m := ReadBody(Lines(rest));
      if m.Some? {
        assert [] + m.value.audioGroups == m.value.audioGroups;
      }
    }
  }

  lemma ReadPreamble(src: Source, rest: string)
    ensures ReadMaster(Preamble(src) + rest) == AddGroups(Groups(src), ReadBody(Lines(rest)))
  {
    var media := MediaPart(src);
    Associative(Line(HEADER), Line(VERSION) + (Line(INDEPENDENT) + media), rest);
    Associative(Line(VERSION), Line(INDEPENDENT) + media, rest);
    Associative(Line(INDEPENDENT), media, rest);
    ReadHeader(Line(VERSION) + (Line(INDEPENDENT) + (media + rest)));
    ReadTagLines(media + rest);
    ReadMediaPart(src, rest);
  }

  lemma MediaIsOneLine()
    ensures '\n' !in MediaLine()
  {
    MediaWellFormed();
    ListIsOneLine(MediaAttributes());
  }

  lemma {:induction false} OffersAt(src: Source, variants: seq<Variant>, i: nat)
    requires i < |variants|
    ensures |Offers(src, variants)| == |variants| && Offers(src, variants)[i] == Offer(src, variants[i])
    ensures Recovered(Offer(src, variants[i])) == Some(variants[i])
  {
    if |variants| > 1 {
      OffersAt(src, variants[1..], if i == 0 then 0 else i - 1);
    }
    assert Uri(variants[i])[..|Uri(variants[i])| - 14] == variants[i].name;
  }

  predicate PlainNames(variants: seq<Variant>) {
    forall i :: 0 <= i < |variants| ==> PlainName(variants[i].name)
  }

  lemma ReadBack(src: Source, variants: seq<Variant>)
    requires PlainRate(src) && PlainNames(variants)
    ensures ReadMaster(MasterText(src, variants)) == Some(Wanted(src, variants))
  {
    ReadPreamble(src, Entries(src, variants));
    ReadEntries(src, variants);
    assert Groups(src) + [] == Groups(src);
  }

  /** A player reads the playlist back as exactly the variants written, in order, each with its own URI,
      precisely when no variant's name breaks its line or starts like a tag. */
  lemma RoundTrip(src: Source, variants: seq<Variant>)
    requires PlainRate(src)
    ensures ReadMaster(MasterText(src, variants)) == Some(Wanted(src, variants)) <==> PlainNames(variants)
  {
    var read := ReadMaster(MasterText(src, variants));
    if PlainNames(variants) {
      ReadBack(src, variants);
    } else if read == Some(Wanted(src, variants)) {
      var i :| 0 <= i < |variants| && !PlainName(variants[i].name);
      OffersAt(src, variants, i);
      PlainUri(variants[i]);
      assert false;
    }
  }

  /** What a player is told of each variant: all its figures, its own playlist, the audio codec if and only if
      there is audio, and then the group that is declared, with the audio's playlist. */
  lemma AudioGroupsDeclared(src: Source, variants: seq<Variant>, i: nat)
    requires PlainRate(src) && PlainNames(variants) && i < |variants|
    ensures ReadMaster(MasterText(src, variants)).Some?
    ensures var m := ReadMaster(MasterText(src, variants)).value;
      && |m.streams| == |variants| && Recovered(m.streams[i]) == Some(variants[i])
      && m.streams[i].uri == variants[i].name + "/playlist.m3u8"
      && m.streams[i].average == Some(variants[i].bandwidth) && m.streams[i].frameRate == src.frameRate
      && m.streams[i].codecs == (if src.hasAudio then "avc1.4d4028,mp4a.40.2" else "avc1.4d4028")
      && (if src.hasAudio
          then m.streams[i].audio == Some("audio") && m.audioGroups == [Group("audio", Some("audio/playlist.m3u8"))]
          else m.streams[i].audio == None && m.audioGroups == [])
  {
    ReadBack(src, variants);
    OffersAt(src, variants, i);
  }

  // ---------- The code ----------

  function StreamFormat(v: Variant): string {
    "#EXT-X-STREAM-INF:BANDWIDTH=" + Decimal(v.bandwidth) + (",AVERAGE-BANDWIDTH=" + Decimal(v.bandwidth)) +
    (",RESOLUTION=" + (Decimal(v.width) + "x" + Decimal(v.height)))
  }

  function RateFormat(rate: string): string {
    ",FRAME-RATE=" + rate
  }

  function AudioFormat(src: Source): string {
    if src.hasAudio then ",AUDIO=\"audio\"" else ""
  }

  function CodecFormat(codecs: string, audio: string): string {
    ",CODECS=" + ("\"" + codecs + "\"") + audio + "\n"
  }

  lemma CommaText(head: string, a: Attribute)
    requires head == "," + a.name + "="
    ensures "," + AttributeText(a) == head + ValueText(a.value)
  {
    Associative(",", a.name, "=");
    Associative(",", a.name + "=", ValueText(a.value));
  }

  lemma ListOfTwo(a: Attribute, b: Attribute)
    ensures ListText([a]) == AttributeText(a)
    ensures ListText([a, b]) == AttributeText(a) + ("," + AttributeText(b))
  {
    assert [a, b][1..] == [b];
    Associative(AttributeText(a), ",", AttributeText(b));
  }

  lemma ListOfThree(a: Attribute, b: Attribute, c: Attribute)
    ensures ListText([a, b, c]) == AttributeText(a) + ("," + AttributeText(b)) + ("," + AttributeText(c))
  {
    assert [a, b, c][1..] == [b, c];
    ListOfTwo(b, c);
    var x, y, z := AttributeText(a), AttributeText(b), "," + AttributeText(c);
    Associative(x, ",", y + z);
    Associative(",", y, z);
    Associative(x, "," + y, z);
  }

  lemma StreamFormatted(v: Variant)
    ensures StreamFormat(v) == STREAM + ListText(VideoAttributes(v))
  {
    var a := VideoAttributes(v);
    ListOfThree(a[0], a[1], a[2]);
    CommaText(",AVERAGE-BANDWIDTH=", a[1]);
    CommaText(",RESOLUTION=", a[2]);
    var x, y, z := AttributeText(a[0]), "," + AttributeText(a[1]), "," + AttributeText(a[2]);
    Associative(STREAM, "BANDWIDTH=", Decimal(v.bandwidth));
    assert STREAM + "BANDWIDTH=" == "#EXT-X-STREAM-INF:BANDWIDTH=";
    assert x == "BANDWIDTH=" + Decimal(v.bandwidth);
    Associative(STREAM, x + y, z);
    Associative(STREAM, x, y);
  }

  lemma RateFormatted(rate: string)
    ensures RateFormat(rate) == "," + ListText([Attribute("FRAME-RATE", Word(rate))])
  {
    CommaText(",FRAME-RATE=", Attribute("FRAME-RATE", Word(rate)));
  }

  lemma CodecFormatted(src: Source)
    ensures CodecFormat(Codecs(src), AudioFormat(src)) == "," + ListText(CodecAttributes(src)) + "\n"
  {
    var codecs, audio := Attribute("CODECS", Quoted(Codecs(src))), Attribute("AUDIO", Quoted("audio"));
    CommaText(",CODECS=", codecs);
    CommaText(",AUDIO=", audio);
    ListOfTwo(codecs, audio);
    if src.hasAudio {
      assert CodecAttributes(src) == [codecs, audio];
      Associative(",", AttributeText(codecs), "," + AttributeText(audio));
    } else {
      assert CodecAttributes(src) == [codecs];
      assert "," + AttributeText(codecs) + "" == "," + AttributeText(codecs);
    }
  }

  function RatePart(src: Source): string {
    if src.frameRate.Some? then RateFormat(src.frameRate.value) else ""
  }

  /** What the three formats of one stream print is the tag line. */
  lemma StreamWritten(src: Source, v: Variant)
    ensures StreamFormat(v) + RatePart(src) + CodecFormat(Codecs(src), AudioFormat(src)) == Line(StreamLine(src, v))
  {
    var video, rate, codecs := VideoAttributes(v), RateAttributes(src), CodecAttributes(src);
    var a, b := STREAM + ListText(video), "," + ListText(codecs);
    StreamFormatted(v);
    CodecFormatted(src);
    if src.frameRate.Some? {
      var c := "," + ListText(rate);
      RateFormatted(src.frameRate.value);
      ListTextConcat(rate, codecs);
      ListTextConcat(video, rate + codecs);
      Associative(",", ListText(rate), b);
      Associative(ListText(rate), ",", ListText(codecs));
      Associative(ListText(video), ",", ListText(rate + codecs));
      Associative(STREAM, ListText(video), c + b);
      Associative(a, c, b);
      Associative(a + c, b, "\n");
    } else {
      assert rate + codecs == codecs;
      ListTextConcat(video, codecs);
      Associative(ListText(video), ",", ListText(codecs));
      Associative(STREAM, ListText(video), b);
      assert a + "" == a;
      Associative(a, b, "\n");
    }
  }

  /** One turn of the loop: what is written for a variant. */
  method WriteVariant(written: string, src: Source, v: Variant) returns (text: string)
    ensures text == written + Entry(src, v)
  {
    text := written + StreamFormat(v);
    if src.frameRate.Some? {
      text := text + RateFormat(src.frameRate.value);
    }
    text := text + CodecFormat(Codecs(src), AudioFormat(src));
    text := text + Line(Uri(v));
    assert written + StreamFormat(v) + "" == written + StreamFormat(v);
    EntryWritten(src, v, written);
  }

  /** writeMasterPlaylist, without the file. A player reads back what was written exactly when the names
      allow it. */
  method WriteMasterPlaylist(src: Source, variants: seq<Variant>) returns (text: string)
    requires PlainRate(src)
    ensures text == MasterText(src, variants)
    ensures "#EXTM3U\n" + "#EXT-X-VERSION:7\n" + "#EXT-X-INDEPENDENT-SEGMENTS\n" <= text
    ensures src.hasAudio ==>
      (Opening() + ("#EXT-X-MEDIA:TYPE=AUDIO" + ",GROUP-ID=\"audio\"" + ",NAME=\"Audio\"" +
                    ",DEFAULT=YES" + ",AUTOSELECT=YES" + ",URI=\"audio/playlist.m3u8\"" + "\n") <= text)
    ensures ReadMaster(text) == Some(Wanted(src, variants)) <==> PlainNames(variants)
  {
    text := Opening();
    if src.hasAudio {
      text := text + MediaFormat();
    }
    PreambleWritten(src);
    ghost var preamble := Preamble(src);
    assert preamble + "" == preamble;
    for n := 0 to |variants|
      invariant text == preamble + Entries(src, variants[..n])
    {
      text := WriteVariant(text, src, variants[n]);
      EntriesExtended(src, variants, n, preamble);
    }
    assert variants[..|variants|] == variants;
    RoundTrip(src, variants);
  }

  function Opening(): string {
    "#EXTM3U\n" + "#EXT-X-VERSION:7\n" + "#EXT-X-INDEPENDENT-SEGMENTS\n"
  }

  function MediaFormat(): string {
    "#EXT-X-MEDIA:TYPE=AUDIO" + ",GROUP-ID=\"audio\"" + ",NAME=\"Audio\"" +
    ",DEFAULT=YES" + ",AUTOSELECT=YES" + ",URI=\"audio/playlist.m3u8\"" + "\n"
  }

  lemma PreambleWritten(src: Source)
    ensures Preamble(src) == if src.hasAudio then Opening() + MediaFormat() else Opening()
  {
    MediaFormatted();
    var media := MediaPart(src);
    Associative(Line(HEADER), Line(VERSION), Line(INDEPENDENT) + media);
    Associative(Line(HEADER) + Line(VERSION), Line(INDEPENDENT), media);
    assert Line(HEADER) == "#EXTM3U\n" && Line(VERSION) == "#EXT-X-VERSION:7\n";
    assert Line(INDEPENDENT) == "#EXT-X-INDEPENDENT-SEGMENTS\n";
  }

  lemma MediaFormatted()
    ensures MediaFormat() == Line(MediaLine())
  {
    var group, choice := GroupAttributes(), ChoiceAttributes();
    GroupFormatted();
    ChoiceFormatted();
    MediaPieces(group[0], group[1], group[2], choice[0], choice[1], choice[2]);
  }

  lemma GroupFormatted()
    ensures var group := GroupAttributes();
      MEDIA + AttributeText(group[0]) == "#EXT-X-MEDIA:TYPE=AUDIO" &&
      "," + AttributeText(group[1]) == ",GROUP-ID=\"audio\"" &&
      "," + AttributeText(group[2]) == ",NAME=\"Audio\""
  {
  }

  lemma ChoiceFormatted()
    ensures var choice := ChoiceAttributes();
      "," + AttributeText(choice[0]) == ",DEFAULT=YES" &&
      "," + AttributeText(choice[1]) == ",AUTOSELECT=YES" &&
      "," + AttributeText(choice[2]) == ",URI=\"audio/playlist.m3u8\""
  {
    var choice := ChoiceAttributes();
    CommaText(",DEFAULT=", choice[0]);
    CommaText(",AUTOSELECT=", choice[1]);
    CommaText(",URI=", choice[2]);
    LongUri();
  }

  lemma LongUri()
    ensures ",URI=" + ("\"" + "audio/playlist.m3u8" + "\"") == ",URI=\"audio/playlist.m3u8\""
  {
  }

  lemma MediaPieces(a: Attribute, b: Attribute, c: Attribute, d: Attribute, e: Attribute, f: Attribute)
    ensures MEDIA + ListText([a, b, c] + [d, e, f]) ==
      MEDIA + AttributeText(a) + ("," + AttributeText(b)) + ("," + AttributeText(c)) +
      ("," + AttributeText(d)) + ("," + AttributeText(e)) + ("," + AttributeText(f))
  {
    ListTextConcat([a, b, c], [d, e, f]);
    ListOfThree(a, b, c);
    ListOfThree(d, e, f);
    var x, y, z := AttributeText(a), "," + AttributeText(b), "," + AttributeText(c);
    var u, v, w := AttributeText(d), "," + AttributeText(e), "," + AttributeText(f);
    Associative(x + y + z, ",", u + v + w);
    Associative(",", u + v, w);
    Associative(",", u, v);
    Associative(x + y + z, "," + u + v, w);
    Associative(x + y + z, "," + u, v);
    Associative(MEDIA, x + y + z + ("," + u) + v, w);
    Associative(MEDIA, x + y + z + ("," + u), v);
    Associative(MEDIA, x + y + z, "," + u);
    Associative(MEDIA, x + y, z);
    Associative(MEDIA, x, y);
  }

  lemma EntryWritten(src: Source, v: Variant, before: string)
    ensures
      before + StreamFormat(v) + RatePart(src) + CodecFormat(Codecs(src), AudioFormat(src)) + Line(Uri(v)) ==
      before + Entry(src, v)
  {
    StreamWritten(src, v);
    var a, b, c := StreamFormat(v), RatePart(src), CodecFormat(Codecs(src), AudioFormat(src));
    Associative(before, a, b);
    Associative(before, a + b, c);
    Associative(before, a + b + c, Line(Uri(v)));
  }
}
