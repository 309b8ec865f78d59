/**
 How large a `deliver_events` message is as a JSON payload, and whether it may be sent.

 Lengths are in bytes of the compact encoding: strings are escaped as section 7 of RFC 8259
 demands, timestamps are RFC 3339 in UTC with the shortest fraction of a second.
 */
module Codec {
  import opened Prelude
  import opened Messages
  import Sanitize

  const MAX_PAYLOAD: nat := 0x4_0000
  const SECOND: nat := 1_000_000_000

  /** Braces, keys, colons, commas, the type tag and the schema id. */
  const MESSAGE_KEYS: nat := 189
  const EVENT_KEYS: nat := 49
  const ACTOR_KEY: nat := 9

  function EscapedBytes(c: char): nat {
    var code := c as int;
    if c == '"' || c == '\\' || code in {0x08, 0x09, 0x0A, 0x0C, 0x0D} then 2
    else if code < 0x20 then 6
    else Sanitize.CharBytes(c)
  }

  function TextBytes(s: string): nat {
    if s == "" then 0 else EscapedBytes(s[0]) + TextBytes(s[1..])
  }

  /** A string with its quotation marks. */
  function StringBytes(s: string): nat {
    2 + TextBytes(s)
  }

  function DigitCount(n: nat): nat {
    if n < 10 then 1 else 1 + DigitCount(n / 10)
  }

  /** Digits of a fraction of `width` digits, without trailing zeros. */
  function FractionDigits(fraction: nat, width: nat): (digits: nat)
    ensures digits <= width
  {
    if width == 0 || fraction % 10 != 0 then width else FractionDigits(fraction / 10, width - 1)
  }

  /** A timestamp with its quotation marks. */
  function StampBytes(stamp: Stamp): (bytes: nat)
    ensures 22 <= bytes <= 32
    ensures stamp.Some? && stamp.value % SECOND == 0 ==> bytes == 22
  {
    if stamp.None? || stamp.value % SECOND == 0 then 22
    else 23 + FractionDigits(stamp.value % SECOND, 9)
  }

  function EventBytes(event: ProviderEvent): nat {
    EVENT_KEYS + StringBytes(event.provider) + StringBytes(event.eventRef)
    + (if event.actor.Some? then ACTOR_KEY + StringBytes(event.actor.value) else 0)
    + StampBytes(event.observedAt) + StringBytes(event.body)
  }

  /** The elements of the event array, with the commas between them. */
  function EventsBytes(events: seq<ProviderEvent>): nat {
    if events == [] then 0
    else EventsBytes(events[..|events| - 1]) + EventBytes(events[|events| - 1]) + if |events| > 1 then 1 else 0
  }

  function PayloadBytes(message: WaiterLink): nat
    requires message.DeliverEvents?
  {
    MESSAGE_KEYS + StringBytes(message.deliveryId) + StringBytes(message.linkId) + StringBytes(message.armId)
    + DigitCount(message.generation) + StringBytes(message.signalId) + StringBytes(message.route)
    + EventsBytes(message.events) + StringBytes(message.newest) + StampBytes(message.attemptedAt)
  }

  /** `encode_payload` accepts a validated message. */
  predicate Fits(message: WaiterLink)
    requires message.DeliverEvents?
  {
    PayloadBytes(message) <= MAX_PAYLOAD
  }

  function LastRef(events: seq<ProviderEvent>): Id {
    if events == [] then "" else events[|events| - 1].eventRef
  }

  /** The payload of these events at the shortest: the four ids have 26 characters each, and
      the attempt falls on a whole second. */
  function LeastBytes(events: seq<ProviderEvent>, route: string, generation: nat): nat {
    MESSAGE_KEYS + 4 * 28 + DigitCount(generation) + StringBytes(route)
    + EventsBytes(events) + StringBytes(LastRef(events)) + 22
  }

  /** These events can be delivered over a link of this route and generation. */
  predicate Sendable(events: seq<ProviderEvent>, route: string, generation: nat) {
    && AreEvents(events, LastRef(events)) && IsAttachedRoute(route) && generation >= 1
    && LeastBytes(events, route, generation) <= MAX_PAYLOAD
  }

  lemma {:induction false} PlainBytes(s: string)
    requires forall i :: 0 <= i < |s| ==> '0' <= s[i] <= '9' || 'A' <= s[i] <= 'Z'
    ensures TextBytes(s) == |s|
  {
    if s != "" {
      PlainBytes(s[1..]);
    }
  }

  /** A valid message is as long as its events make it, but for the instant of the attempt. */
  lemma PayloadOfValid(message: WaiterLink)
    requires message.DeliverEvents? && ValidLink(message)
    ensures PayloadBytes(message) == LeastBytes(message.events, message.route, message.generation)
                                     + StampBytes(message.attemptedAt) - 22
  {
    PlainBytes(message.deliveryId);
    PlainBytes(message.linkId);
    PlainBytes(message.armId);
    PlainBytes(message.signalId);
    hide TextBytes, EventsBytes, DigitCount, IsEvent, Distinct;
  }

  function SampleUlid(): (id: Id)
    ensures IsUlid(id)
  {
    seq(26, _ => '0')
  }

  /** Main result: events are sendable exactly when some valid message of that route and
      generation with just these events fits the payload limit. */
  lemma SendableMeans(events: seq<ProviderEvent>, route: string, generation: nat)
    ensures Sendable(events, route, generation) <==>
              exists m: WaiterLink :: m.DeliverEvents? && ValidLink(m) && m.events == events && m.route == route
                                      && m.generation == generation && Fits(m)
  {
    hide IsEvent, Distinct, IsUlid, IsToken, TextBytes, EventsBytes, DigitCount, SampleUlid;
    var id := SampleUlid();
    assert IsUlid(id);
    if Sendable(events, route, generation) {
      var m := DeliverEvents(id, id, id, generation, id, route, events, LastRef(events), Some(0));
      assert ValidLink(m);
      PayloadOfValid(m);
      assert Fits(m);
    }
    forall m: WaiterLink | m.DeliverEvents? && ValidLink(m) && m.events == events && m.route == route
                           && m.generation == generation && Fits(m)
      ensures Sendable(events, route, generation)
    {
      PayloadOfValid(m);
    }
  }

  // ----- large events -----

  lemma {:induction false} TextAtLeast(s: string)
    ensures TextBytes(s) >= |s|
  {
    if s != "" {
      TextAtLeast(s[1..]);
    }
  }

  lemma OneMoreTime(n: nat, body: nat)
    ensures n * body + body == (n + 1) * body && 0 * body == 0
  {
  }

  lemma BodyWithin(event: ProviderEvent)
    ensures EventBytes(event) >= TextBytes(event.body)
  {
    hide TextBytes, StampBytes;
  }

  lemma {:induction false} EventsAtLeast(events: seq<ProviderEvent>, body: nat)
    requires forall i :: 0 <= i < |events| ==> TextBytes(events[i].body) >= body
    ensures EventsBytes(events) >= |events| * body
  {
    hide TextBytes, EventBytes;
    if events == [] {
      OneMoreTime(0, body);
    } else {
      var n := |events| - 1;
      var shorter := events[..n];
      EventsAtLeast(shorter, body);
      BodyWithin(events[n]);
      OneMoreTime(n, body);
      assert |shorter| == n;
    }
  }

  /** Sixty-four bodies of full length are too large on their own, however plain they are;
      so are thirty-two whose every character is escaped. */
  lemma FullBodiesDoNotFit(events: seq<ProviderEvent>, route: string, generation: nat)
    requires exists body: nat :: |events| * body >= MAX_PAYLOAD
                                 && forall i :: 0 <= i < |events| ==> TextBytes(events[i].body) >= body
    ensures !Sendable(events, route, generation)
  {
    hide TextBytes;
    var body: nat :| |events| * body >= MAX_PAYLOAD
                     && forall i :: 0 <= i < |events| ==> TextBytes(events[i].body) >= body;
    EventsAtLeast(events, body);
    hide EventsBytes;
  }
}
