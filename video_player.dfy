/**
 * The logic of the results page's player script: grouping the detected
 * events by type for the events list (`displayEvents`), the marker class of
 * the timeline (`createEventTimeline`), the tolerance test that marks the
 * events near the playback position (`highlightCurrentEvents`), and the
 * mirroring of mute and volume from the video onto the commentary audio.
 */
module VideoPlayer {
  import opened Wrappers
  import opened Text
  import opened Presentation
  import Commentary

  type Event = Commentary.Event

  // ---------------------------------------------------------------------
  // Grouping (`eventsByType`)

  /** The events of type `t`, in input order. */
  function OfType(events: seq<Event>, t: string): (r: seq<Event>)
    ensures |r| <= |events|
  {
    if |events| == 0 then []
    else
      var e := events[|events| - 1];
      OfType(events[..|events| - 1], t) + (if e.eventType == t then [e] else [])
  }

  /** The keys of `eventsByType`, in insertion order: each type where it first occurs. */
  function TypesOf(events: seq<Event>): seq<string>
  {
    if |events| == 0 then []
    else
      var ts := TypesOf(events[..|events| - 1]);
      var t := events[|events| - 1].eventType;
      if t in ts then ts else ts + [t]
  }

  /** The `forEach` that fills `eventsByType`. */
  method GroupByType(events: seq<Event>) returns (types: seq<string>, groups: map<string, seq<Event>>)
    ensures types == TypesOf(events)
    ensures forall t :: t in groups <==> t in types
    ensures forall t :: t in groups ==> groups[t] == OfType(events, t)
  {
    types := [];
    groups := map[];
    for i := 0 to |events|
      invariant types == TypesOf(events[..i])
      invariant forall t :: t in groups <==> t in types
      invariant forall t :: t in groups ==> groups[t] == OfType(events[..i], t)
      invariant forall t :: t !in groups ==> OfType(events[..i], t) == []
    {
      assert events[..i + 1][..i] == events[..i];
      var event := events[i];
      var t := event.eventType;
      if t !in groups {
        groups := groups[t := []];
        types := types + [t];
      }
      groups := groups[t := groups[t] + [event]];
    }
    assert events[..|events|] == events;
  }

  /** Every event is in the group of its type and in no other. */
  lemma {:induction false} OfTypeMembers(events: seq<Event>, t: string)
    ensures forall e :: e in OfType(events, t) <==> e in events && e.eventType == t
  {
    if |events| > 0 {
      var init := events[..|events| - 1];
      OfTypeMembers(init, t);
      assert events == init + [events[|events| - 1]];
    }
  }

  /** Grouping keeps the input order: the group of a concatenation is the concatenation of the groups. */
  lemma {:induction false} OfTypeConcat(a: seq<Event>, b: seq<Event>, t: string)
    ensures OfType(a + b, t) == OfType(a, t) + OfType(b, t)
    decreases |b|
  {
    if |b| > 0 {
      var init := b[..|b| - 1];
      assert (a + b)[..|a + b| - 1] == a + init;
      OfTypeConcat(a, init, t);
    } else {
      assert a + b == a;
    }
  }

  /** Some event has type `t`. */
  predicate Occurs(events: seq<Event>, t: string)
  {
    exists e :: e in events && e.eventType == t
  }

  /**
   * The group types: distinct, exactly the types that occur, each with a
   * non-empty group; the group of any other type is empty.
   */
  lemma {:induction false} TypesOfFacts(events: seq<Event>)
    ensures var ts := TypesOf(events);
      && (forall i, j :: 0 <= i < j < |ts| ==> ts[i] != ts[j])
      && (forall t :: t in ts <==> Occurs(events, t))
      && (forall t :: t in ts ==> |OfType(events, t)| > 0)
      && (forall t :: t !in ts ==> OfType(events, t) == [])
  {
    if |events| > 0 {
      var init := events[..|events| - 1];
      var e := events[|events| - 1];
      TypesOfFacts(init);
      assert forall i, j :: 0 <= i < j < |TypesOf(init)| ==> TypesOf(init)[i] != TypesOf(init)[j];
      assert events == init + [e];
      forall t ensures Occurs(events, t) <==> Occurs(init, t) || e.eventType == t {
        if e.eventType == t {
          assert e in events;
        }
        if Occurs(events, t) {
          var x :| x in events && x.eventType == t;
          assert x in init || x == e;
        }
      }
      forall t ensures |OfType(events, t)| >= |OfType(init, t)| { }
      var ts := TypesOf(init);
      if e.eventType !in ts {
        var ts' := ts + [e.eventType];
        forall i, j | 0 <= i < j < |ts'| ensures ts'[i] != ts'[j] {
          if j == |ts| {
            assert ts'[i] == ts[i] && ts[i] in ts;
            assert ts'[j] == e.eventType;
          } else {
            assert ts'[i] == ts[i] && ts'[j] == ts[j];
          }
        }
      }
    }
  }

  /** The sum of the group sizes over `types`. */
  function GroupSizes(events: seq<Event>, types: seq<string>): nat
  {
    if |types| == 0 then 0
    else GroupSizes(events, types[..|types| - 1]) + |OfType(events, types[|types| - 1])|
  }

  lemma {:induction false} GroupSizesSnoc(events: seq<Event>, e: Event, types: seq<string>)
    requires forall i, j :: 0 <= i < j < |types| ==> types[i] != types[j]
    ensures GroupSizes(events + [e], types) == GroupSizes(events, types) + (if e.eventType in types then 1 else 0)
  {
    if |types| > 0 {
      var init := types[..|types| - 1];
      assert forall i, j :: 0 <= i < j < |init| ==> init[i] != init[j];
      GroupSizesSnoc(events, e, init);
      assert (events + [e])[..|events|] == events;
      assert e.eventType in types <==> e.eventType in init || e.eventType == types[|types| - 1];
    }
  }

  lemma {:induction false} GroupSizesAbsent(events: seq<Event>, types: seq<string>, t: string)
    requires t !in types
    ensures GroupSizes(events, types + [t]) == GroupSizes(events, types) + |OfType(events, t)|
  {
    assert (types + [t])[..|types|] == types;
  }

  /** The groups together hold every event exactly once: their sizes add up to the number of events. */
  lemma {:induction false} GroupSizesSum(events: seq<Event>)
    ensures GroupSizes(events, TypesOf(events)) == |events|
  {
    if |events| > 0 {
      var init := events[..|events| - 1];
      var e := events[|events| - 1];
      GroupSizesSum(init);
      TypesOfFacts(init);
      assert events == init + [e];
      var ts := TypesOf(init);
      GroupSizesSnoc(init, e, ts);
      if e.eventType !in ts {
        GroupSizesAbsent(events, ts, e.eventType);
      }
    }
  }

  // ---------------------------------------------------------------------
  // The events list (`displayEvents`)

  datatype ListItem =
    | Header(text: string)
    | Entry(subtype: string, time: string, timestamp: real)

  /** The list: the "no events" message, or the items under the group headers. */
  datatype Listing = NoEvents | Items(items: seq<ListItem>)

  const NoEventsMessage: string := "No events detected in this video."

  /** `${Type} Events (${n})`. */
  function HeaderText(t: string, n: nat): string
  {
    Capitalize(t) + " Events (" + NatToString(n) + ")"
  }

  /** The item of one event: `event.subtype || ''` and the formatted timestamp. */
  function EntryOf(e: Event): ListItem
  {
    Entry(if e.subtype.Some? then e.subtype.value else "", FormatTime(Num(e.timestamp)), e.timestamp)
  }

  function Entries(group: seq<Event>): (r: seq<ListItem>)
    ensures |r| == |group|
  {
    seq(|group|, i requires 0 <= i < |group| => EntryOf(group[i]))
  }

  /** The header of a group followed by its events. */
  function GroupItems(t: string, group: seq<Event>): seq<ListItem>
  {
    [Header(HeaderText(t, |group|))] + Entries(group)
  }

  /** The groups of `types`, in that order. */
  function ListingItems(events: seq<Event>, types: seq<string>): seq<ListItem>
  {
    if |types| == 0 then []
    else
      var t := types[|types| - 1];
      ListingItems(events, types[..|types| - 1]) + GroupItems(t, OfType(events, t))
  }

  function ListingOf(events: seq<Event>): Listing
  {
    if |events| == 0 then NoEvents else Items(ListingItems(events, TypesOf(events)))
  }

  /** `displayEvents(events)`. */
  method DisplayEvents(events: seq<Event>) returns (listing: Listing)
    ensures listing == ListingOf(events)
  {
    if |events| == 0 {
      return NoEvents;
    }
    var types, groups := GroupByType(events);
    var items: seq<ListItem> := [];
    for k := 0 to |types|
      invariant items == ListingItems(events, types[..k])
    {
      var t := types[k];
      ListingItemsSnoc(events, types, k);
      items := AppendGroup(items, t, groups[t]);
    }
    assert types[..|types|] == types;
    listing := Items(items);
  }

  lemma ListingItemsSnoc(events: seq<Event>, types: seq<string>, k: nat)
    requires k < |types|
    ensures ListingItems(events, types[..k + 1]) == ListingItems(events, types[..k]) + GroupItems(types[k], OfType(events, types[k]))
  {
    assert types[..k + 1][..k] == types[..k];
  }

  lemma EntriesSnoc(group: seq<Event>, j: nat)
    requires j < |group|
    ensures Entries(group[..j + 1]) == Entries(group[..j]) + [EntryOf(group[j])]
  {
    var a, b := Entries(group[..j + 1]), Entries(group[..j]) + [EntryOf(group[j])];
    forall i | 0 <= i < |a| ensures a[i] == b[i] {
      assert group[..j + 1][i] == group[i];
    }
  }

  /** The header of one group, then an item for each of its events. */
  method AppendGroup(items: seq<ListItem>, t: string, typeEvents: seq<Event>) returns (r: seq<ListItem>)
    ensures r == items + GroupItems(t, typeEvents)
  {
    var entries := [];
    for j := 0 to |typeEvents|
      invariant entries == Entries(typeEvents[..j])
    {
      EntriesSnoc(typeEvents, j);
      entries := entries + [EntryOf(typeEvents[j])];
    }
    assert typeEvents[..|typeEvents|] == typeEvents;
    r := items + [Header(HeaderText(t, |typeEvents|))] + entries;
  }

  function CountEntries(items: seq<ListItem>): nat
  {
    if |items| == 0 then 0
    else CountEntries(items[..|items| - 1]) + (if items[|items| - 1].Entry? then 1 else 0)
  }

  function CountHeaders(items: seq<ListItem>): nat
  {
    if |items| == 0 then 0
    else CountHeaders(items[..|items| - 1]) + (if items[|items| - 1].Header? then 1 else 0)
  }

  lemma {:induction false} CountsConcat(a: seq<ListItem>, b: seq<ListItem>)
    ensures CountEntries(a + b) == CountEntries(a) + CountEntries(b)
    ensures CountHeaders(a + b) == CountHeaders(a) + CountHeaders(b)
    decreases |b|
  {
    if |b| > 0 {
      var init := b[..|b| - 1];
      assert (a + b)[..|a + b| - 1] == a + init;
      CountsConcat(a, init);
    } else {
      assert a + b == a;
    }
  }

  lemma {:induction false} CountsOfEntries(group: seq<Event>)
    ensures CountEntries(Entries(group)) == |group| && CountHeaders(Entries(group)) == 0
  {
    if |group| > 0 {
      var init := group[..|group| - 1];
      CountsOfEntries(init);
      assert Entries(group)[..|group| - 1] == Entries(init);
    }
  }

  lemma {:induction false} CountsOfListing(events: seq<Event>, types: seq<string>)
    ensures CountEntries(ListingItems(events, types)) == GroupSizes(events, types)
    ensures CountHeaders(ListingItems(events, types)) == |types|
  {
    if |types| > 0 {
      var t := types[|types| - 1];
      CountsOfListing(events, types[..|types| - 1]);
      var g := OfType(events, t);
      CountsConcat(ListingItems(events, types[..|types| - 1]), GroupItems(t, g));
      CountsConcat([Header(HeaderText(t, |g|))], Entries(g));
      CountsOfEntries(g);
      assert [Header(HeaderText(t, |g|))][..0] == [];
    }
  }

  /** The list shows the message exactly when there are no events; otherwise one header per type and one item per event. */
  lemma ListingCounts(events: seq<Event>)
    ensures ListingOf(events) == NoEvents <==> |events| == 0
    ensures ListingOf(events).Items? ==>
      && CountEntries(ListingOf(events).items) == |events|
      && CountHeaders(ListingOf(events).items) == |TypesOf(events)|
  {
    if |events| > 0 {
      CountsOfListing(events, TypesOf(events));
      GroupSizesSum(events);
    }
  }

  // ---------------------------------------------------------------------
  // The timeline (`createEventTimeline`)

  /** The colour class of a marker. */
  function MarkerClass(eventType: string): string
  {
    if eventType == "boundary" then "boundary-event"
    else if eventType == "wicket" then "wicket-event"
    else if eventType == "shot_played" then "shot-event"
    else "other-event"
  }

  /** The three known types get their own classes, distinct from each other; every other type shares `other-event`. */
  lemma MarkerClassCases(eventType: string)
    ensures var c := MarkerClass(eventType);
      && (c == "other-event" <==> eventType !in ["boundary", "wicket", "shot_played"])
      && (c == "boundary-event" <==> eventType == "boundary")
      && (c == "wicket-event" <==> eventType == "wicket")
      && (c == "shot-event" <==> eventType == "shot_played")
  {
  }

  /** A marker: its class and its tooltip `${type}: ${subtype || ''} at ${time}`. */
  datatype Marker = Marker(markerClass: string, title: string)

  function MarkerOf(e: Event): Marker
  {
    var subtype := if e.subtype.Some? then e.subtype.value else "";
    Marker(MarkerClass(e.eventType), e.eventType + ": " + subtype + " at " + FormatTime(Num(e.timestamp)))
  }

  /**
   * The markers, one per event in order; `None` when the video has no
   * duration yet (NaN or zero), in which case the timeline is left as it was.
   */
  function Timeline(events: seq<Event>, duration: Number): (r: Option<seq<Marker>>)
    ensures r.None? <==> duration == NaN || duration == Num(0.0)
    ensures r.Some? ==> |r.value| == |events| && forall i :: 0 <= i < |events| ==> r.value[i] == MarkerOf(events[i])
  {
    if duration == NaN || duration == Num(0.0) then None
    else Some(seq(|events|, i requires 0 <= i < |events| => MarkerOf(events[i])))
  }

  // ---------------------------------------------------------------------
  // Highlighting (`highlightCurrentEvents`)

  const Tolerance: real := 2.0

  /** `Math.abs(currentVideoTime - timestamp) <= tolerance`. */
  predicate IsCurrent(currentTime: real, timestamp: real)
  {
    (if currentTime >= timestamp then currentTime - timestamp else timestamp - currentTime) <= Tolerance
  }

  /** An event is current exactly when the playback position lies within two seconds of it, on either side. */
  lemma IsCurrentWindow(currentTime: real, timestamp: real)
    ensures IsCurrent(currentTime, timestamp) <==> timestamp - 2.0 <= currentTime <= timestamp + 2.0
    ensures IsCurrent(currentTime, timestamp) == IsCurrent(timestamp, currentTime)
  {
  }

  /** Sets or clears `current-event` on each item, by its `data-timestamp`. */
  method HighlightCurrentEvents(currentTime: real, timestamps: seq<real>, current: array<bool>)
    requires current.Length == |timestamps|
    modifies current
    ensures forall i :: 0 <= i < current.Length ==> (current[i] <==> IsCurrent(currentTime, timestamps[i]))
  {
    for i := 0 to current.Length
      invariant forall k :: 0 <= k < i ==> (current[k] <==> IsCurrent(currentTime, timestamps[k]))
    {
      if IsCurrent(currentTime, timestamps[i]) {
        current[i] := true;
      } else {
        current[i] := false;
      }
    }
  }

  // ---------------------------------------------------------------------
  // Mute and volume (`toggleMute`, `updateVolume`)

  /** The state of a media element that these controls touch. */
  class MediaElement {
    var muted: bool
    var volume: real

    constructor (muted: bool, volume: real)
      ensures this.muted == muted && this.volume == volume
    {
      this.muted := muted;
      this.volume := volume;
    }
  }

  /** Flips the video's mute flag and copies it onto the audio, if there is one. */
  method ToggleMute(video: MediaElement, audio: MediaElement?)
    modifies video, audio
    ensures video.muted == !old(video.muted)
    ensures audio != null ==> audio.muted == video.muted
    ensures video.volume == old(video.volume)
    ensures audio != null ==> audio.volume == old(audio.volume)
  {
    video.muted := !video.muted;
    if audio != null {
      audio.muted := video.muted;
    }
  }

  /** Sets the volume of the video and of the audio to the control's value; without a control nothing changes. */
  method UpdateVolume(video: MediaElement, audio: MediaElement?, control: Option<real>)
    modifies video, audio
    ensures control.Some? ==> video.volume == control.value
    ensures control.Some? && audio != null ==> audio.volume == control.value
    ensures control.None? ==> video.volume == old(video.volume)
    ensures control.None? && audio != null ==> audio.volume == old(audio.volume)
    ensures video.muted == old(video.muted)
    ensures audio != null ==> audio.muted == old(audio.muted)
  {
    if control.Some? {
      var volume := control.value;
      video.volume := volume;
      if audio != null {
        audio.volume := volume;
      }
    }
  }
}
