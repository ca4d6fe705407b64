/**
 The notification texts the bridge builds from a webhook's fields: the
 SMS and call notifications, and the owner's copy with the event id line
 in front. Every absent field reads as "unknown", so none of these fails.
 */
module Notification {
  import opened Wrappers
  import opened Strings

  /** The placeholder for an absent field. */
  const Unknown: string := "unknown"

  /** `values.get(key, 'unknown')`. */
  function Get(fields: map<string, string>, key: string): string
  {
    if key in fields then fields[key] else Unknown
  }

  /** The four values a notification shows, in the order it shows them. */
  datatype Parts = Parts(from: string, country: string, state: string, detail: string)

  /** The template both notifications share,
      '<kind> from `+{From}` ({Country}, {State}) :```   {detail}```',
      where kind is "Text" for an SMS and "Call" for a call. */
  function Compose(kind: string, p: Parts): string
  {
    kind + " from `+" + p.from + "` (" + p.country + ", " + p.state + ") :```   " + p.detail + "```"
  }

  /** The webhook fields each notification reads. */
  const SmsKeys: set<string> := {"From", "FromCountry", "FromState", "Body"}
  const CallKeys: set<string> := {"From", "FromCountry", "FromState", "CallStatus"}

  /** The values an SMS notification shows, absent ones as "unknown". */
  function SmsParts(fields: map<string, string>): Parts
  {
    Parts(Get(fields, "From"), Get(fields, "FromCountry"), Get(fields, "FromState"), Get(fields, "Body"))
  }

  /** The values a call notification shows, absent ones as "unknown". */
  function CallParts(fields: map<string, string>): Parts
  {
    Parts(Get(fields, "From"), Get(fields, "FromCountry"), Get(fields, "FromState"), Get(fields, "CallStatus"))
  }

  /** The notification for an incoming SMS. */
  function SmsMessage(fields: map<string, string>): string
  {
    Compose("Text", SmsParts(fields))
  }

  /** The notification for an incoming call. */
  function CallMessage(fields: map<string, string>): string
  {
    Compose("Call", CallParts(fields))
  }

  /** The first line of the owner's copy, 'Twilio ID : `{Id}`'. */
  function IdLine(id: string): string
  {
    "Twilio ID : `" + id + "`"
  }

  /** The owner's copy: the event id line, then the notification unchanged. */
  function OwnerMessage(id: string, message: string): string
  {
    IdLine(id) + "\n" + message
  }

  /** What follows the state: ' :```   {detail}```'. */
  function DetailTail(detail: string): string
  {
    " :```   " + detail + "```"
  }

  /** What follows the country: ' {State}) :```   {detail}```'. */
  function StateTail(state: string, detail: string): string
  {
    " " + (state + [')'] + DetailTail(detail))
  }

  /** What follows the caller number: ' ({Country}, {State}) :```   {detail}```'. */
  function LocationTail(p: Parts): string
  {
    " (" + (p.country + [','] + StateTail(p.state, p.detail))
  }

  /** Reads a notification of the given kind back into the values it shows. */
  function Parse(kind: string, s: string): (r: Option<Parts>)
    ensures r.Some? ==> Readable(r.value) && s == Compose(kind, r.value)
  {
    var lead := kind + " from `+";
    if lead <= s then
      match SplitAtFirst(s[|lead|..], '`')
      case Some((from, rest)) =>
        var r := ParseLocation(from, rest);
        if r.Some? then
          PrefixThen(lead, s);
          ComposeAtSeparators(kind, r.value);
          r
        else None
      case None => None
    else None
  }

  /** After the caller number: ' ({Country}, {State}) :```   {detail}```'. */
  function ParseLocation(from: string, s: string): (r: Option<Parts>)
    ensures r.Some? ==> r.value.from == from && ',' !in r.value.country && ')' !in r.value.state
    ensures r.Some? ==> s == LocationTail(r.value)
  {
    if " (" <= s then
      match SplitAtFirst(s[2..], ',')
      case Some((country, rest)) =>
        var r := ParseState(from, country, rest);
        if r.Some? then
          PrefixThen(" (", s);
          r
        else None
      case None => None
    else None
  }

  /** After the country: ' {State}) :```   {detail}```'. */
  function ParseState(from: string, country: string, s: string): (r: Option<Parts>)
    ensures r.Some? ==> r.value.from == from && r.value.country == country && ')' !in r.value.state
    ensures r.Some? ==> s == StateTail(r.value.state, r.value.detail)
  {
    if " " <= s then
      match SplitAtFirst(s[1..], ')')
      case Some((state, rest)) =>
        var r := ParseDetail(from, country, state, rest);
        if r.Some? then
          PrefixThen(" ", s);
          r
        else None
      case None => None
    else None
  }

  /** After the state: ' :```   {detail}```'. */
  function ParseDetail(from: string, country: string, state: string, s: string): (r: Option<Parts>)
    ensures r.Some? ==> r.value == Parts(from, country, state, r.value.detail)
    ensures r.Some? ==> s == DetailTail(r.value.detail)
  {
    if " :```   " <= s && |s| >= 11 && s[|s| - 3..] == "```" then
      Some(Parts(from, country, state, s[8..|s| - 3]))
    else None
  }

  /** The values whose notification can be read back unambiguously: the
      caller number holds no backtick, the country no comma and the state no
      closing parenthesis (the message body or call status may hold anything). */
  predicate Readable(p: Parts)
  {
    '`' !in p.from && ',' !in p.country && ')' !in p.state
  }

  /** A string that starts with `lead` is `lead` followed by the rest. */
  lemma PrefixThen(lead: string, s: string)
    requires lead <= s
    ensures s == lead + s[|lead|..]
  {
  }

  /** The template cut at the separators the parser looks for. */
  lemma ComposeAtSeparators(kind: string, p: Parts)
    ensures Compose(kind, p) == (kind + " from `+") + (p.from + ['`'] + LocationTail(p))
  {
  }

  /** Each stage of the parser reads back what the template wrote at that point. */
  lemma ParseDetailOf(from: string, country: string, state: string, detail: string)
    ensures ParseDetail(from, country, state, DetailTail(detail)) == Some(Parts(from, country, state, detail))
  {
  }

  lemma ParseStateOf(from: string, country: string, state: string, detail: string)
    requires ')' !in state
    ensures ParseState(from, country, StateTail(state, detail)) == Some(Parts(from, country, state, detail))
  {
    var s := StateTail(state, detail);
    assert s[1..] == state + [')'] + DetailTail(detail);
    SplitAtFirstOf(state, ')', DetailTail(detail));
    ParseDetailOf(from, country, state, detail);
  }

  lemma ParseLocationOf(from: string, p: Parts)
    requires ',' !in p.country && ')' !in p.state
    ensures ParseLocation(from, LocationTail(p)) == Some(Parts(from, p.country, p.state, p.detail))
  {
    var s := LocationTail(p);
    assert s[2..] == p.country + [','] + StateTail(p.state, p.detail);
    SplitAtFirstOf(p.country, ',', StateTail(p.state, p.detail));
    ParseStateOf(from, p.country, p.state, p.detail);
  }

  /** Reading a readable notification back gives the values it was built from. */
  lemma ParseCompose(kind: string, p: Parts)
    requires Readable(p)
    ensures Parse(kind, Compose(kind, p)) == Some(p)
  {
    var lead := kind + " from `+";
    var s := Compose(kind, p);
    ComposeAtSeparators(kind, p);
    assert s[|lead|..] == p.from + ['`'] + LocationTail(p);
    SplitAtFirstOf(p.from, '`', LocationTail(p));
    ParseLocationOf(p.from, p);
  }

  /** An absent field and a field whose value is "unknown" give the same SMS notification. */
  lemma SmsAbsentIsUnknown(fields: map<string, string>, key: string)
    requires key in SmsKeys && key !in fields
    ensures SmsMessage(fields) == SmsMessage(fields[key := Unknown])
  {
  }

  /** An absent field and a field whose value is "unknown" give the same call notification. */
  lemma CallAbsentIsUnknown(fields: map<string, string>, key: string)
    requires key in CallKeys && key !in fields
    ensures CallMessage(fields) == CallMessage(fields[key := Unknown])
  {
  }

  /** The SMS notification depends on its four fields and on nothing else. */
  lemma SmsReadsOnlyItsKeys(f1: map<string, string>, f2: map<string, string>)
    requires forall k :: k in SmsKeys ==> Get(f1, k) == Get(f2, k)
    ensures SmsMessage(f1) == SmsMessage(f2)
  {
  }

  /** The call notification depends on its four fields and on nothing else. */
  lemma CallReadsOnlyItsKeys(f1: map<string, string>, f2: map<string, string>)
    requires forall k :: k in CallKeys ==> Get(f1, k) == Get(f2, k)
    ensures CallMessage(f1) == CallMessage(f2)
  {
  }

  /** The SMS notification shows the caller, country, state and body, each
      "unknown" when absent, and can be read back to exactly those values. */
  lemma SmsMessageReadsBack(fields: map<string, string>)
    requires Readable(SmsParts(fields))
    ensures Parse("Text", SmsMessage(fields)) ==
      Some(Parts(Get(fields, "From"), Get(fields, "FromCountry"), Get(fields, "FromState"), Get(fields, "Body")))
  {
    ParseCompose("Text", SmsParts(fields));
  }

  /** The call notification shows the caller, country, state and call status,
      each "unknown" when absent, and can be read back to exactly those values. */
  lemma CallMessageReadsBack(fields: map<string, string>)
    requires Readable(CallParts(fields))
    ensures Parse("Call", CallMessage(fields)) ==
      Some(Parts(Get(fields, "From"), Get(fields, "FromCountry"), Get(fields, "FromState"), Get(fields, "CallStatus")))
  {
    ParseCompose("Call", CallParts(fields));
  }

  /** Why `Readable` is needed: a comma inside the country and one inside the
      state give the same text, so no reader can tell the two apart. */
  lemma TemplateIsAmbiguous()
    ensures Compose("Text", Parts("1", "A, B", "C", "d")) == Compose("Text", Parts("1", "A", "B, C", "d"))
    ensures Parts("1", "A, B", "C", "d") != Parts("1", "A", "B, C", "d")
  {
  }

  /** An SMS notification never reads as a call notification, nor the other way round. */
  lemma KindsAreDistinct(f1: map<string, string>, f2: map<string, string>)
    ensures Parse("Call", SmsMessage(f1)) == None
    ensures Parse("Text", CallMessage(f2)) == None
  {
    assert SmsMessage(f1)[0] == 'T';
    assert CallMessage(f2)[0] == 'C';
  }

  /** When the id holds no newline, the owner's copy splits at its first
      newline into the id line and the notification exactly as subscribers get it. */
  lemma OwnerMessageSplit(id: string, message: string)
    requires '\n' !in id
    ensures SplitAtFirst(OwnerMessage(id, message), '\n') == Some((IdLine(id), message))
  {
    var head := IdLine(id);
    assert '\n' !in head by {
      forall i | 0 <= i < |head| ensures head[i] != '\n' {
        if 13 <= i < 13 + |id| { assert head[i] == id[i - 13]; }
      }
    }
    assert OwnerMessage(id, message) == head + ['\n'] + message;
    SplitAtFirstOf(head, '\n', message);
  }
}
