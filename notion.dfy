/** The Notion adapter of server/notion.js: flattening a page's property
    bag into a plain object, and the property bags and timestamps the
    adapter writes. The HTTP calls themselves are not modelled. */
module Notion {
  import opened Schema

  /** The JavaScript values the flattened object can hold. */
  datatype Value =
    | Undefined
    | Null
    | Bool(b: bool)
    | Num(n: real)
    | Str(s: string)
    | List(items: seq<Value>)
    | Obj(fields: map<string, Value>)

  /** One fragment of a title or rich-text property, as Notion returns it. */
  datatype RichText = RichText(plainText: string)

  datatype SelectOption = SelectOption(name: string)

  datatype DateValue = DateValue(start: string)

  /** The `type` tags the parser's switch names. */
  const KnownTypes: set<string> :=
    {"title", "rich_text", "number", "select", "multi_select", "date", "checkbox", "phone_number"}

  /** A type tag the switch does not name, such as "url" or "email". */
  type OtherTag = t: string | t !in KnownTypes witness "url"

  /** A property value, discriminated by its `type` tag. Nullable payloads
      are `Option`s; an unnamed type keeps its raw fields so that
      `val[val.type]` can be read from them. */
  datatype Property =
    | Title(title: seq<RichText>)
    | RichTextProp(richText: seq<RichText>)
    | NumberProp(number: Option<real>)
    | Select(select: Option<SelectOption>)
    | MultiSelect(options: seq<SelectOption>)
    | Date(date: Option<DateValue>)
    | Checkbox(checked: bool)
    | PhoneNumber(phone: Option<string>)
    | Other(typeTag: OtherTag, raw: map<string, Value>)
  {
    function TypeTag(): string {
      match this
      case Title(_) => "title"
      case RichTextProp(_) => "rich_text"
      case NumberProp(_) => "number"
      case Select(_) => "select"
      case MultiSelect(_) => "multi_select"
      case Date(_) => "date"
      case Checkbox(_) => "checkbox"
      case PhoneNumber(_) => "phone_number"
      case Other(t, _) => t
    }
  }

  /** `fragments[0]?.plain_text || ''`. */
  function FirstPlainText(fragments: seq<RichText>): (s: string)
    ensures fragments == [] ==> s == ""
    ensures fragments != [] ==> s == fragments[0].plainText
  {
    if fragments == [] then "" else fragments[0].plainText
  }

  function OptionNames(options: seq<SelectOption>): (names: seq<Value>)
    ensures |names| == |options|
    ensures forall i :: 0 <= i < |options| ==> names[i] == Str(options[i].name)
  {
    seq(|options|, i requires 0 <= i < |options| => Str(options[i].name))
  }

  /** The value one property flattens to. Text-like types always give a
      string, with '' standing for an absent payload; numbers and
      checkboxes pass through; an unnamed type gives the field its tag
      names, or undefined when there is none. */
  function ParseValue(p: Property): (v: Value)
    ensures (p.Title? || p.RichTextProp? || p.Select? || p.Date? || p.PhoneNumber?) ==> v.Str?
    ensures p.Title? ==> v == Str(FirstPlainText(p.title))
    ensures p.RichTextProp? ==> v == Str(FirstPlainText(p.richText))
    ensures p.Select? ==> (v == Str("") <==> p.select.None? || p.select.value.name == "")
    ensures p.Select? && p.select.Some? ==> v == Str(p.select.value.name)
    ensures p.Date? ==> (v == Str("") <==> p.date.None? || p.date.value.start == "")
    ensures p.Date? && p.date.Some? ==> v == Str(p.date.value.start)
    ensures p.PhoneNumber? ==> (v == Str("") <==> p.phone.None? || p.phone.value == "")
    ensures p.PhoneNumber? && p.phone.Some? ==> v == Str(p.phone.value)
    ensures p.NumberProp? ==> (v.Null? <==> p.number.None?) && (p.number.Some? ==> v == Num(p.number.value))
    ensures p.Checkbox? ==> v == Bool(p.checked)
    ensures p.MultiSelect? ==> v.List? && |v.items| == |p.options|
    ensures p.MultiSelect? ==> forall i :: 0 <= i < |p.options| ==> v.items[i] == Str(p.options[i].name)
    ensures p.Other? ==> v == (if p.typeTag in p.raw then p.raw[p.typeTag] else Undefined)
    ensures v.Undefined? ==> p.Other?
  {
    match p
    case Title(fragments) => Str(FirstPlainText(fragments))
    case RichTextProp(fragments) => Str(FirstPlainText(fragments))
    case NumberProp(n) => if n.Some? then Num(n.value) else Null
    case Select(o) => Str(if o.Some? then o.value.name else "")
    case MultiSelect(options) => List(OptionNames(options))
    case Date(d) => Str(if d.Some? then d.value.start else "")
    case Checkbox(c) => Bool(c)
    case PhoneNumber(ph) => Str(if ph.Some? then ph.value else "")
    case Other(t, raw) => if t in raw then raw[t] else Undefined
  }

  /** `Object.entries(properties)`: the property bag as key/value pairs. */
  type Entries = seq<(string, Property)>

  function Keys(entries: Entries): (ks: set<string>)
    ensures forall i :: 0 <= i < |entries| ==> entries[i].0 in ks
    ensures forall k :: k in ks ==> exists i :: 0 <= i < |entries| && entries[i].0 == k
  {
    set i | 0 <= i < |entries| :: entries[i].0
  }

  /** The object after assigning each entry in turn: the last entry's
      assignment is the one that stays. */
  function ParsedObject(entries: Entries): (obj: map<string, Value>)
    ensures entries != [] ==> entries[|entries| - 1].0 in obj && obj[entries[|entries| - 1].0] == ParseValue(entries[|entries| - 1].1)
  {
    if entries == [] then map[]
    else
      var init, last := entries[..|entries| - 1], entries[|entries| - 1];
      ParsedObject(init)[last.0 := ParseValue(last.1)]
  }

  /** `parseProperties`: fills a fresh object key by key. */
  method ParseProperties(entries: Entries) returns (obj: map<string, Value>)
    ensures obj == ParsedObject(entries)
    ensures obj.Keys == Keys(entries)
  {
    obj := map[];
    var i := 0;
    while i < |entries|
      invariant 0 <= i <= |entries|
      invariant obj == ParsedObject(entries[..i])
    {
      var (key, val) := entries[i];
      assert entries[..i + 1][..i] == entries[..i];
      obj := obj[key := ParseValue(val)];
      i := i + 1;
    }
    assert entries[..|entries|] == entries;
    ParsedObjectKeys(entries);
  }

  /** The parsed object has exactly the keys of the property bag. */
  lemma {:induction false} ParsedObjectKeys(entries: Entries)
    ensures ParsedObject(entries).Keys == Keys(entries)
  {
    if entries != [] {
      var init := entries[..|entries| - 1];
      ParsedObjectKeys(init);
      assert forall i :: 0 <= i < |init| ==> init[i] == entries[i];
    }
  }

  /** A property lands under its key as its flattened value unless a later
      entry reuses the key (which `Object.entries` never produces). */
  lemma {:induction false} ParsedObjectValues(entries: Entries, i: nat)
    requires i < |entries|
    requires forall j :: i < j < |entries| ==> entries[j].0 != entries[i].0
    ensures entries[i].0 in ParsedObject(entries)
    ensures ParsedObject(entries)[entries[i].0] == ParseValue(entries[i].1)
  {
    var init := entries[..|entries| - 1];
    if i < |entries| - 1 {
      assert init[i] == entries[i];
      assert forall j :: i < j < |init| ==> init[j] == entries[j];
      ParsedObjectValues(init, i);
    }
  }

  // ---------------------------------------------------------------------
  // Timestamps
  // ---------------------------------------------------------------------

  /** `s.replace(' ', 'T')` with a string pattern: only the first space. */
  function ReplaceFirstSpace(s: string): (r: string)
    ensures |r| == |s|
    ensures ' ' !in s ==> r == s
  {
    if s == [] then []
    else if s[0] == ' ' then ['T'] + s[1..]
    else [s[0]] + ReplaceFirstSpace(s[1..])
  }

  /** Character by character: the first space becomes 'T' and every other
      character, later spaces included, is kept. */
  lemma {:induction false} ReplaceFirstSpaceAt(s: string, i: nat)
    requires i < |s|
    ensures ReplaceFirstSpace(s)[i] == (if s[i] == ' ' && ' ' !in s[..i] then 'T' else s[i])
  {
    if s[0] != ' ' && i > 0 {
      ReplaceFirstSpaceAt(s[1..], i - 1);
      assert s[..i] == [s[0]] + s[1..][..i - 1];
    }
  }

  /** The Korea Standard Time offset appended to every timestamp. */
  const SeoulOffset: string := "+09:00"

  /** The ISO 8601 timestamp built from the Swedish-locale clock string. */
  function NotionTimestamp(now: string): (t: string)
    ensures |t| == |now| + |SeoulOffset|
    ensures t[|now|..] == SeoulOffset
  {
    ReplaceFirstSpace(now) + SeoulOffset
  }

  /** For the "YYYY-MM-DD HH:MM:SS" shape the Swedish locale produces, the
      timestamp is "YYYY-MM-DDTHH:MM:SS+09:00"; spaces after the first are
      left alone. */
  lemma NotionTimestampOfLocaleString(date: string, time: string)
    requires ' ' !in date
    ensures NotionTimestamp(date + " " + time) == date + "T" + time + SeoulOffset
  {
    var s := date + " " + time;
    var r := ReplaceFirstSpace(s);
    forall i | 0 <= i < |s|
      ensures r[i] == (date + "T" + time)[i]
    {
      ReplaceFirstSpaceAt(s, i);
      if i < |date| {
        assert s[i] == date[i];
      } else if i == |date| {
        assert s[..i] == date;
      } else {
        assert s[..i][|date|] == ' ';
      }
    }
    assert r == date + "T" + time;
  }

  // ---------------------------------------------------------------------
  // The property bags the adapter writes
  // ---------------------------------------------------------------------

  /** A text written as one fragment reads back as that fragment's
      plain_text. */
  function Fragment(content: string): seq<RichText> {
    [RichText(content)]
  }

  /** The properties `trackAction` writes for one action. */
  function TrackActionEntries(userId: string, actionType: string, productId: string, now: string): (e: Entries)
    ensures Keys(e) == {"userId", "actionType", "productId", "timestamp"}
  {
    var e := [ ("userId", Select(Some(SelectOption(userId)))),
               ("actionType", Select(Some(SelectOption(actionType)))),
               ("productId", Select(Some(SelectOption(productId)))),
               ("timestamp", Date(Some(DateValue(NotionTimestamp(now))))) ];
    KeysOfFour(e);
    e
  }

  /** The properties `updateWeights` writes into the weights page. */
  function UpdateWeightsEntries(w: Weights, accuracy: real, now: string): (e: Entries)
    ensures Keys(e) == {"bias", "w_view", "w_click", "w_buy", "accuracy", "updated_at"}
  {
    var e := [ ("bias", NumberProp(Some(w.bias))),
               ("w_view", NumberProp(Some(w.wView))),
               ("w_click", NumberProp(Some(w.wClick))),
               ("w_buy", NumberProp(Some(w.wBuy))),
               ("accuracy", NumberProp(Some(accuracy))),
               ("updated_at", Date(Some(DateValue(NotionTimestamp(now))))) ];
    KeysOfSix(e);
    e
  }

  /** The properties `addTrainingLog` writes for one log entry. */
  function TrainingLogEntries(status: string, message: string, now: string): (e: Entries)
    ensures Keys(e) == {"Name", "message", "timestamp"}
  {
    var e := [ ("Name", Title(Fragment(status))),
               ("message", RichTextProp(Fragment(message))),
               ("timestamp", Date(Some(DateValue(NotionTimestamp(now))))) ];
    KeysOfThree(e);
    e
  }

  lemma KeysOfThree(e: Entries)
    requires |e| == 3
    ensures Keys(e) == {e[0].0, e[1].0, e[2].0}
  {
  }

  lemma KeysOfFour(e: Entries)
    requires |e| == 4
    ensures Keys(e) == {e[0].0, e[1].0, e[2].0, e[3].0}
  {
  }

  lemma KeysOfSix(e: Entries)
    requires |e| == 6
    ensures Keys(e) == {e[0].0, e[1].0, e[2].0, e[3].0, e[4].0, e[5].0}
  {
  }

  /** Reading back a tracked action yields its fields as strings. */
  lemma TrackActionRoundTrip(userId: string, actionType: string, productId: string, now: string)
    ensures var obj := ParsedObject(TrackActionEntries(userId, actionType, productId, now));
            && obj.Keys == {"userId", "actionType", "productId", "timestamp"}
            && obj["userId"] == Str(userId)
            && obj["actionType"] == Str(actionType)
            && obj["productId"] == Str(productId)
            && obj["timestamp"] == Str(NotionTimestamp(now))
  {
    var e := TrackActionEntries(userId, actionType, productId, now);
    ParsedObjectKeys(e);
    ParsedObjectValues(e, 0);
    ParsedObjectValues(e, 1);
    ParsedObjectValues(e, 2);
    ParsedObjectValues(e, 3);
  }

  /** Reading back the weights page yields the numbers written. */
  lemma UpdateWeightsRoundTrip(w: Weights, accuracy: real, now: string)
    ensures var obj := ParsedObject(UpdateWeightsEntries(w, accuracy, now));
            && obj.Keys == {"bias", "w_view", "w_click", "w_buy", "accuracy", "updated_at"}
            && obj["bias"] == Num(w.bias)
            && obj["w_view"] == Num(w.wView)
            && obj["w_click"] == Num(w.wClick)
            && obj["w_buy"] == Num(w.wBuy)
            && obj["accuracy"] == Num(accuracy)
            && obj["updated_at"] == Str(NotionTimestamp(now))
  {
    var e := UpdateWeightsEntries(w, accuracy, now);
    ParsedObjectKeys(e);
    ParsedObjectValues(e, 0);
    ParsedObjectValues(e, 1);
    ParsedObjectValues(e, 2);
    ParsedObjectValues(e, 3);
    ParsedObjectValues(e, 4);
    ParsedObjectValues(e, 5);
  }

  /** Reading back a training log yields its status and message. */
  lemma TrainingLogRoundTrip(status: string, message: string, now: string)
    ensures var obj := ParsedObject(TrainingLogEntries(status, message, now));
            && obj.Keys == {"Name", "message", "timestamp"}
            && obj["Name"] == Str(status)
            && obj["message"] == Str(message)
            && obj["timestamp"] == Str(NotionTimestamp(now))
  {
    var e := TrainingLogEntries(status, message, now);
    ParsedObjectKeys(e);
    ParsedObjectValues(e, 0);
    ParsedObjectValues(e, 1);
    ParsedObjectValues(e, 2);
  }
}
