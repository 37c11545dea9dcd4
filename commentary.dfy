/**
 * The commentary composer (`generate_commentary`): events are put in
 * timestamp order, each becomes a commentary segment drawn from the template
 * tables, and the segments are joined with occasional transition phrases.
 * The random choices come from an `Oracle`, so the output is a function of
 * the events and the oracle.
 */
module Commentary {
  import opened Wrappers
  import opened Text
  import Shots

  /** A detected event; `subtype` is `None` when the event has no `subtype` key. */
  datatype Event = Event(timestamp: real, eventType: string, subtype: Option<string>)

  /** `event.get('subtype', 'generic')`. */
  function SubtypeOf(e: Event): string
  {
    if e.subtype.Some? then e.subtype.value else "generic"
  }

  // ---------------------------------------------------------------------
  // The stable sort by timestamp (`sorted(events, key=timestamp)`).

  /** Put `e` before the first element whose timestamp is at least its own. */
  function Insert(e: Event, s: seq<Event>): seq<Event>
  {
    if |s| == 0 || e.timestamp <= s[0].timestamp then [e] + s
    else [s[0]] + Insert(e, s[1..])
  }

  /** Insertion sort, inserting each event in front of the equal ones that follow it. */
  function SortByTimestamp(events: seq<Event>): seq<Event>
  {
    if |events| == 0 then [] else Insert(events[0], SortByTimestamp(events[1..]))
  }

  predicate SortedByTimestamp(s: seq<Event>)
  {
    forall i, j :: 0 <= i <= j < |s| ==> s[i].timestamp <= s[j].timestamp
  }

  /** The events of `s` with timestamp `t`, in order. */
  function WithTimestamp(s: seq<Event>, t: real): seq<Event>
  {
    if |s| == 0 then []
    else (if s[0].timestamp == t then [s[0]] else []) + WithTimestamp(s[1..], t)
  }

  lemma {:induction false} InsertPermutes(e: Event, s: seq<Event>)
    ensures multiset(Insert(e, s)) == multiset(s) + multiset{e}
  {
    if |s| > 0 && e.timestamp > s[0].timestamp {
      InsertPermutes(e, s[1..]);
      assert s == [s[0]] + s[1..];
    }
  }

  lemma {:induction false} InsertSorted(e: Event, s: seq<Event>)
    requires SortedByTimestamp(s)
    ensures SortedByTimestamp(Insert(e, s))
  {
    if |s| > 0 && e.timestamp > s[0].timestamp {
      InsertSorted(e, s[1..]);
      InsertPermutes(e, s[1..]);
      var rest := Insert(e, s[1..]);
      forall x | x in rest ensures s[0].timestamp <= x.timestamp {
        assert x in multiset(rest);
      }
      assert Insert(e, s) == [s[0]] + rest;
    }
  }

  /** Inserting `e` adds it in front of the events of its own timestamp. */
  lemma {:induction false} InsertWithTimestamp(e: Event, s: seq<Event>, t: real)
    ensures WithTimestamp(Insert(e, s), t) == (if e.timestamp == t then [e] else []) + WithTimestamp(s, t)
  {
    if |s| > 0 && e.timestamp > s[0].timestamp {
      InsertWithTimestamp(e, s[1..], t);
      var r := Insert(e, s);
      assert r[0] == s[0] && r[1..] == Insert(e, s[1..]);
    }
  }

  /** The sort orders by timestamp and is a permutation. */
  lemma {:induction false} SortByTimestampSorts(events: seq<Event>)
    ensures SortedByTimestamp(SortByTimestamp(events))
    ensures multiset(SortByTimestamp(events)) == multiset(events)
  {
    if |events| > 0 {
      SortByTimestampSorts(events[1..]);
      InsertSorted(events[0], SortByTimestamp(events[1..]));
      InsertPermutes(events[0], SortByTimestamp(events[1..]));
      assert events == [events[0]] + events[1..];
    }
  }

  /** The sort is stable: the events of each timestamp keep their input order. */
  lemma {:induction false} SortByTimestampStable(events: seq<Event>, t: real)
    ensures WithTimestamp(SortByTimestamp(events), t) == WithTimestamp(events, t)
  {
    if |events| > 0 {
      SortByTimestampStable(events[1..], t);
      InsertWithTimestamp(events[0], SortByTimestamp(events[1..]), t);
    }
  }

  // ---------------------------------------------------------------------
  // The tables.

  const WaitingMessage := "The match continues. Waiting for the next delivery."

  const UnknownTypeSegment := "The action continues on the cricket field."

  /**
   * The three tables the composer reads: the templates by event type and
   * subtype, the transition phrases and the match-situation sentences.
   */
  datatype Tables = Tables(templates: map<string, map<string, seq<string>>>, transitions: seq<string>, situations: seq<string>)

  /** Every list is non-empty, so that `random.choice` never fails. */
  predicate WellFormed(tables: Tables)
  {
    && (forall t, s :: t in tables.templates && s in tables.templates[t] ==> |tables.templates[t][s]| > 0)
    && |tables.transitions| > 0
    && |tables.situations| > 0
  }

  /** The sentence lists of `COMMENTARY_TEMPLATES`, one per subtype entry. */
  datatype TemplateList =
    | FourList | SixList | BowledList | CaughtList | LbwList | RunOutList | StumpedList
    | StraightDriveList | CoverDriveList | CutShotList | PullShotList | HookShotList
    | SweepShotList | DefensiveShotList | FlickShotList | GenericShotList

  /** Every list of the table has five sentences. */
  datatype FiveSentences = FiveSentences(s0: string, s1: string, s2: string, s3: string, s4: string)

  function Sentences(l: TemplateList): FiveSentences
  {
    match l
    case FourList => FiveSentences(
      "That's a beautiful shot! The ball races away to the boundary for FOUR!",
      "What a stroke! That's FOUR runs as the ball reaches the boundary rope.",
      "Expertly placed! The fielder has no chance as the ball speeds to the boundary for FOUR.",
      "That'll be FOUR! Perfectly timed and placed to the boundary.",
      "The batsman finds the gap and gets FOUR runs for that shot.")
    case SixList => FiveSentences(
      "MASSIVE HIT! That's gone all the way for SIX!",
      "The batsman has really got hold of that one! SIX runs!",
      "Up, up, and away! That's a huge SIX over the boundary!",
      "What a strike! The ball sails over the boundary for SIX!",
      "The crowd is on their feet! That's a magnificent SIX!")
    case BowledList => FiveSentences(
      "BOWLED HIM! The stumps are shattered!",
      "The ball hits the timber! He's BOWLED!",
      "Clean bowled! The batsman has to go!",
      "The stumps are in disarray! That's a brilliant delivery to get the wicket!",
      "The ball sneaks through the gate and hits the stumps! He's out!")
    case CaughtList => FiveSentences(
      "CAUGHT! The fielder takes a good catch and the batsman has to walk!",
      "Up goes the ball... and it's CAUGHT! What a take by the fielder!",
      "That's a catch! The batsman is disappointed as he walks back to the pavilion.",
      "The ball goes straight to the fielder, who makes no mistake! CAUGHT!",
      "A simple catch but an important wicket! The batsman is out!")
    case LbwList => FiveSentences(
      "That looks plumb! The umpire raises the finger for LBW!",
      "Appeal for LBW... and he's given! The batsman has to go!",
      "Struck on the pads, and the umpire agrees with the appeal! LBW!",
      "A huge appeal for LBW, and the umpire doesn't hesitate! He's out!",
      "The ball strikes the pad in line with the stumps. LBW! He's gone!")
    case RunOutList => FiveSentences(
      "The fielder hits the stumps directly! That's a RUN OUT!",
      "There was never a run there! The batsman is RUN OUT!",
      "Quick work by the fielder! The batsman is well short of his ground. RUN OUT!",
      "The throw is accurate, and the batsman is RUN OUT!",
      "Brilliant fielding! The batsman is caught short of the crease. RUN OUT!")
    case StumpedList => FiveSentences(
      "The batsman is out of his crease, and the keeper whips off the bails! STUMPED!",
      "Clever work by the wicketkeeper! The batsman is STUMPED!",
      "The batsman overbalances, and the keeper is quick to remove the bails! STUMPED!",
      "Sharp stumping by the keeper! The batsman has to go!",
      "The batsman is caught short of his ground, and the keeper completes the stumping!")
    case StraightDriveList => FiveSentences(
      "That's a classic straight drive! A classic shot played with a straight bat, hitting the ball back past the bowler.",
      "The batsman plays a lovely straight drive. Well-timed and executed.",
      "Excellent execution of the straight drive!",
      "Textbook straight drive from the batsman!",
      "The batsman demonstrates a perfect straight drive. The hallmark of good technique.")
    case CoverDriveList => FiveSentences(
      "That's a classic cover drive! An elegant shot played through the off side, between mid-off and point.",
      "The batsman plays a lovely cover drive. Pure elegance on display.",
      "Excellent execution of the cover drive!",
      "Textbook cover drive from the batsman!",
      "The batsman demonstrates a perfect cover drive. As elegant as they come.")
    case CutShotList => FiveSentences(
      "That's a classic cut shot! A horizontal bat shot played to a short, wide delivery, cutting the ball toward point.",
      "The batsman plays a lovely cut shot. Taking advantage of the width offered.",
      "Excellent execution of the cut shot!",
      "Textbook cut shot from the batsman!",
      "The batsman demonstrates a perfect cut shot. Using the pace of the ball well.")
    case PullShotList => FiveSentences(
      "That's a classic pull shot! A shot played to a short-pitched delivery, pulling the ball to the leg side.",
      "The batsman plays a lovely pull shot. Swiveling well to get on top of the bounce.",
      "Excellent execution of the pull shot!",
      "Textbook pull shot from the batsman!",
      "The batsman demonstrates a perfect pull shot. Great control against the short ball.")
    case HookShotList => FiveSentences(
      "That's a classic hook shot! Similar to the pull but played to a higher bouncing ball, hooking it around to the leg side.",
      "The batsman plays a lovely hook shot. Taking on the bouncer with confidence.",
      "Excellent execution of the hook shot!",
      "Textbook hook shot from the batsman!",
      "The batsman demonstrates a perfect hook shot. Handling the short ball with aplomb.")
    case SweepShotList => FiveSentences(
      "That's a classic sweep shot! A shot played on one knee, sweeping the ball to the leg side, usually against spin bowling.",
      "The batsman plays a lovely sweep shot. Good use of the feet against the spinner.",
      "Excellent execution of the sweep shot!",
      "Textbook sweep shot from the batsman!",
      "The batsman demonstrates a perfect sweep shot. Countering the spin effectively.")
    case DefensiveShotList => FiveSentences(
      "That's a classic defensive shot! A defensive stroke played with a straight bat to block the ball.",
      "The batsman plays a solid defensive shot. Showing good technique.",
      "Excellent execution of the defensive shot!",
      "Textbook defensive technique from the batsman!",
      "The batsman demonstrates perfect defensive technique. Safety first.")
    case FlickShotList => FiveSentences(
      "That's a classic flick shot! A wristy shot played off the pads, flicking the ball to the leg side.",
      "The batsman plays a lovely flick shot. Elegant use of the wrists.",
      "Excellent execution of the flick shot!",
      "Textbook flick shot from the batsman!",
      "The batsman demonstrates a perfect flick shot. Turning a straight ball to the leg side.")
    case GenericShotList => FiveSentences(
      "The batsman plays a good shot there.",
      "Well played by the batsman.",
      "That's good batting technique on display.",
      "The batsman gets into position nicely to play that shot.",
      "A confident stroke from the batsman.")
  }

  /** The list as a sequence, in source order. */
  function Options(l: TemplateList): (r: seq<string>)
    ensures |r| == 5
  {
    var f := Sentences(l);
    [f.s0, f.s1, f.s2, f.s3, f.s4]
  }

  /** `TRANSITIONS`. */
  const Transitions: seq<string> := [
    "Meanwhile, ",
    "Now, ",
    "At this stage, ",
    "Looking at the field, ",
    "The bowler prepares again. ",
    "The batsman takes guard. ",
    "The fielders adjust their positions. ",
    "The crowd is getting excited. ",
    "There's a brief discussion in the field. ",
    "The umpire checks the ball. "
  ]

  /** `MATCH_SITUATION`. */
  const MatchSituation: seq<string> := [
    "The pressure is mounting on the batting side.",
    "The bowler seems confident after that delivery.",
    "The batsman needs to be more careful with those shots.",
    "The field placement is really testing the batsman's patience.",
    "The bowling side is looking for a breakthrough here.",
    "The batting team is looking to build a partnership.",
    "Both teams know how crucial this phase of play is.",
    "The run rate is slowly climbing up.",
    "The captain is considering a bowling change.",
    "The fielders are alert and ready for any chance."
  ]

  /** `COMMENTARY_TEMPLATES`: event type, then subtype, then the list of candidate sentences. */
  const CommentaryTemplates: map<string, map<string, TemplateList>> := map[
    "boundary" := map["four" := FourList, "six" := SixList],
    "wicket" := map[
      "bowled" := BowledList, "caught" := CaughtList, "lbw" := LbwList,
      "run_out" := RunOutList, "stumped" := StumpedList],
    "shot_played" := map[
      "straight drive" := StraightDriveList, "cover drive" := CoverDriveList,
      "cut shot" := CutShotList, "pull shot" := PullShotList, "hook shot" := HookShotList,
      "sweep shot" := SweepShotList, "defensive shot" := DefensiveShotList,
      "flick shot" := FlickShotList, "generic" := GenericShotList]
  ]

  /** The tables `generate_commentary` reads. */
  function SourceTables(): (tables: Tables)
    ensures WellFormed(tables)
    ensures tables.templates.Keys == CommentaryTemplates.Keys
    ensures forall t :: t in tables.templates ==> tables.templates[t].Keys == CommentaryTemplates[t].Keys
  {
    PhraseListSizes();
    var templates := map t | t in CommentaryTemplates :: map s | s in CommentaryTemplates[t] :: Options(CommentaryTemplates[t][s]);
    Tables(templates, Transitions, MatchSituation)
  }

  lemma PhraseListSizes()
    ensures |Transitions| == 10 && |MatchSituation| == 10
  {
  }

  /** Only the shot table has a `generic` list. */
  lemma GenericOnlyForShots(t: string)
    requires t in CommentaryTemplates
    ensures "generic" in CommentaryTemplates[t] <==> t == "shot_played"
  {
  }

  /** Eight of the ten catalog shots have their own templates; square drive and on drive fall back to `generic`. */
  lemma ShotTemplates(s: Shots.Shot)
    ensures Shots.ShotName(s) in CommentaryTemplates["shot_played"] <==> s != Shots.SquareDrive && s != Shots.OnDrive
  {
  }

  // ---------------------------------------------------------------------
  // The random choices.

  /**
   * The source of `random.choice` and `random.random() < 0.7`: draw number
   * `d` picks `pick(d)` (reduced modulo the list length) or flips `coin(d)`.
   */
  datatype Oracle = Oracle(pick: nat -> nat, coin: nat -> bool)

  /** `random.choice(options)` at draw `d`. */
  function Choice(options: seq<string>, o: Oracle, d: nat): (r: string)
    requires |options| > 0
    ensures r in options
  {
    options[o.pick(d) % |options|]
  }

  // ---------------------------------------------------------------------
  // The segment loop.

  /** The variables of the segment loop, plus the number of draws made. */
  datatype ComposerState = ComposerState(sections: seq<string>, lastType: Option<string>, similar: nat, draw: nat)

  const Start := ComposerState([], None, 0, 0)

  /** The event has templates for its type and subtype. */
  predicate Templated(tables: Tables, e: Event)
  {
    e.eventType in tables.templates && SubtypeOf(e) in tables.templates[e.eventType]
  }

  /** The event produces a segment: all but a known type whose subtype is unknown and that has no `generic` list. */
  predicate Contributes(tables: Tables, e: Event)
  {
    e.eventType in tables.templates ==>
      SubtypeOf(e) in tables.templates[e.eventType] || "generic" in tables.templates[e.eventType]
  }

  /** A templated event repeating the last type, with the counter reaching 2: a situation sentence is added. */
  predicate SituationAdded(tables: Tables, st: ComposerState, e: Event)
  {
    Templated(tables, e) && st.lastType == Some(e.eventType) && st.similar + 1 >= 2
  }

  /** One iteration of the segment loop. */
  function Step(tables: Tables, st: ComposerState, e: Event, o: Oracle): ComposerState
    requires WellFormed(tables)
  {
    var t, sub := e.eventType, SubtypeOf(e);
    if t in tables.templates then
      var templates := tables.templates[t];
      if sub in templates then
        var template := Choice(templates[sub], o, st.draw);
        if st.lastType == Some(t) then
          if st.similar + 1 >= 2 then
            ComposerState(st.sections + [template + " " + Choice(tables.situations, o, st.draw + 1)], Some(t), 0, st.draw + 2)
          else
            ComposerState(st.sections + [template], Some(t), st.similar + 1, st.draw + 1)
        else
          ComposerState(st.sections + [template], Some(t), 0, st.draw + 1)
      else if "generic" in templates then
        st.(sections := st.sections + [Choice(templates["generic"], o, st.draw)], draw := st.draw + 1)
      else
        st
    else
      st.(sections := st.sections + [UnknownTypeSegment])
  }

  /** The segment loop over `events`, in order. */
  function ComposeAlong(tables: Tables, st: ComposerState, events: seq<Event>, o: Oracle): ComposerState
    requires WellFormed(tables)
  {
    if |events| == 0 then st
    else Step(tables, ComposeAlong(tables, st, events[..|events| - 1], o), events[|events| - 1], o)
  }

  // ---------------------------------------------------------------------
  // The join loop.

  /**
   * The combined text and the draw counter after the join loop has handled
   * the first `n` segments: each one after the first is preceded by a space
   * and either a transition and its lower-cased form, or itself.
   */
  function Combine(tables: Tables, sections: seq<string>, n: nat, o: Oracle, d: nat): (string, nat)
    requires WellFormed(tables)
    requires 1 <= n <= |sections|
  {
    if n == 1 then (sections[0], d)
    else
      var (combined, draw) := Combine(tables, sections, n - 1, o, d);
      if o.coin(draw) then
        (combined + " " + Choice(tables.transitions, o, draw + 1) + Lower(sections[n - 1]), draw + 2)
      else
        (combined + " " + sections[n - 1], draw + 1)
  }

  /** The composer over any well-formed tables, as a value. */
  function CommentaryWith(tables: Tables, events: seq<Event>, o: Oracle): string
    requires WellFormed(tables)
  {
    if |events| == 0 then WaitingMessage
    else
      var st := ComposeAlong(tables, Start, SortByTimestamp(events), o);
      if |st.sections| == 0 then WaitingMessage
      else Combine(tables, st.sections, |st.sections|, o, st.draw).0
  }

  /** `generate_commentary(events)`, as a value. */
  function CommentaryOf(events: seq<Event>, o: Oracle): string
  {
    CommentaryWith(SourceTables(), events, o)
  }

  /** The first loop of `generate_commentary`: one segment per event, tracking the last templated type and the repetition counter. */
  method ComposeSegments(tables: Tables, sorted: seq<Event>, o: Oracle) returns (sections: seq<string>, draw: nat)
    requires WellFormed(tables)
    ensures sections == ComposeAlong(tables, Start, sorted, o).sections
    ensures draw == ComposeAlong(tables, Start, sorted, o).draw
  {
    sections := [];
    var lastType: Option<string> := None;
    var similar: nat := 0;
    draw := 0;
    for i := 0 to |sorted|
      invariant ComposerState(sections, lastType, similar, draw) == ComposeAlong(tables, Start, sorted[..i], o)
    {
      assert sorted[..i + 1][..i] == sorted[..i];
      var event := sorted[i];
      var eventType := event.eventType;
      var eventSubtype := SubtypeOf(event);
      if eventType in tables.templates {
        var templates := tables.templates[eventType];
        if eventSubtype in templates {
          var template := Choice(templates[eventSubtype], o, draw);
          draw := draw + 1;
          if lastType == Some(eventType) {
            similar := similar + 1;
            if similar >= 2 {
              var situation := Choice(tables.situations, o, draw);
              draw := draw + 1;
              template := template + " " + situation;
              similar := 0;
            }
          } else {
            similar := 0;
          }
          sections := sections + [template];
          lastType := Some(eventType);
        } else if "generic" in templates {
          sections := sections + [Choice(templates["generic"], o, draw)];
          draw := draw + 1;
        }
      } else {
        sections := sections + [UnknownTypeSegment];
      }
    }
    assert sorted[..|sorted|] == sorted;
  }

  /** The second loop of `generate_commentary`: append each later segment, with a transition when the coin says so. */
  method JoinSegments(tables: Tables, sections: seq<string>, o: Oracle, d: nat) returns (combined: string)
    requires WellFormed(tables)
    requires |sections| > 0
    ensures combined == Combine(tables, sections, |sections|, o, d).0
  {
    combined := sections[0];
    var draw := d;
    for i := 1 to |sections|
      invariant (combined, draw) == Combine(tables, sections, i, o, d)
    {
      if o.coin(draw) {
        var transition := Choice(tables.transitions, o, draw + 1);
        combined := combined + " " + transition + Lower(sections[i]);
        draw := draw + 2;
      } else {
        combined := combined + " " + sections[i];
        draw := draw + 1;
      }
    }
  }

  /** `generate_commentary(events)`, reading the source's tables. */
  method GenerateCommentary(events: seq<Event>, o: Oracle) returns (text: string)
    ensures text == CommentaryOf(events, o)
  {
    var tables := SourceTables();
    if |events| == 0 {
      return WaitingMessage;
    }
    var sorted := SortByTimestamp(events);
    var sections, draw := ComposeSegments(tables, sorted, o);
    if |sections| == 0 {
      return WaitingMessage;
    }
    text := JoinSegments(tables, sections, o, draw);
  }

  // ---------------------------------------------------------------------
  // Properties. All but the first hold for every well-formed set of tables.

  /** No events: the waiting message. */
  lemma EmptyEventsWait(o: Oracle)
    ensures CommentaryOf([], o) == WaitingMessage
  {
  }

  /** `boundary` and `wicket` events with a subtype outside their table are the silent ones. */
  lemma SilentEvents(e: Event)
    ensures !Contributes(SourceTables(), e) <==>
      (e.eventType == "boundary" || e.eventType == "wicket") && SubtypeOf(e) !in CommentaryTemplates[e.eventType]
  {
    var tables := SourceTables();
    if e.eventType in CommentaryTemplates {
      GenericOnlyForShots(e.eventType);
    }
  }

  /** An unknown type adds the fixed segment and touches neither the counters nor the draws. */
  lemma UnknownTypeStep(tables: Tables, st: ComposerState, e: Event, o: Oracle)
    requires WellFormed(tables)
    requires e.eventType !in tables.templates
    ensures Step(tables, st, e, o) == st.(sections := st.sections + [UnknownTypeSegment])
  {
  }

  /** The generic fallback adds one `generic` sentence and leaves `last_event_type` and `consecutive_similar` alone. */
  lemma GenericFallbackStep(tables: Tables, st: ComposerState, e: Event, o: Oracle)
    requires WellFormed(tables)
    requires e.eventType in tables.templates && !Templated(tables, e)
    ensures var r := Step(tables, st, e, o);
      && r.lastType == st.lastType && r.similar == st.similar
      && ("generic" in tables.templates[e.eventType] ==>
            |r.sections| == |st.sections| + 1 && r.sections[..|st.sections|] == st.sections &&
            r.sections[|st.sections|] in tables.templates[e.eventType]["generic"])
      && ("generic" !in tables.templates[e.eventType] ==> r == st)
  {
  }

  /** A missing subtype behaves as the subtype `generic`. */
  lemma MissingSubtypeIsGeneric(tables: Tables, st: ComposerState, e: Event, o: Oracle)
    requires WellFormed(tables)
    requires e.subtype.None?
    ensures Step(tables, st, e, o) == Step(tables, st, e.(subtype := Some("generic")), o)
  {
  }

  /** A templated event adds one of its templates, followed by a situation sentence exactly when `SituationAdded`. */
  lemma TemplatedStep(tables: Tables, st: ComposerState, e: Event, o: Oracle)
    requires WellFormed(tables)
    requires Templated(tables, e)
    ensures var r := Step(tables, st, e, o);
      var options := tables.templates[e.eventType][SubtypeOf(e)];
      && r.lastType == Some(e.eventType)
      && |r.sections| == |st.sections| + 1 && r.sections[..|st.sections|] == st.sections
      && (!SituationAdded(tables, st, e) ==> r.sections[|st.sections|] in options)
      && (SituationAdded(tables, st, e) ==> exists tpl, sit :: (tpl in options && sit in tables.situations &&
            r.sections[|st.sections|] == tpl + " " + sit))
      && r.similar == (if st.lastType == Some(e.eventType) && !SituationAdded(tables, st, e) then st.similar + 1 else 0)
  {
    var options := tables.templates[e.eventType][SubtypeOf(e)];
    if SituationAdded(tables, st, e) {
      var r := Step(tables, st, e, o);
      var tpl, sit := Choice(options, o, st.draw), Choice(tables.situations, o, st.draw + 1);
      assert r.sections[|st.sections|] == tpl + " " + sit;
    }
  }

  /** The number of events that produce a segment. */
  function CountContributing(tables: Tables, events: seq<Event>): nat
  {
    if |events| == 0 then 0
    else (if Contributes(tables, events[0]) then 1 else 0) + CountContributing(tables, events[1..])
  }

  lemma {:induction false} CountContributingConcat(tables: Tables, a: seq<Event>, b: seq<Event>)
    ensures CountContributing(tables, a + b) == CountContributing(tables, a) + CountContributing(tables, b)
  {
    if |a| > 0 {
      CountContributingConcat(tables, a[1..], b);
      assert (a + b)[1..] == a[1..] + b;
    } else {
      assert a + b == b;
    }
  }

  /** Removing the event at `j` removes its contribution. */
  lemma CountContributingRemove(tables: Tables, b: seq<Event>, j: nat)
    requires j < |b|
    ensures multiset(b[..j] + b[j + 1..]) == multiset(b) - multiset{b[j]}
    ensures CountContributing(tables, b) ==
      CountContributing(tables, b[..j] + b[j + 1..]) + (if Contributes(tables, b[j]) then 1 else 0)
  {
    var front, back := b[..j], b[j + 1..];
    assert b == front + ([b[j]] + back);
    CountContributingConcat(tables, front, [b[j]] + back);
    CountContributingConcat(tables, [b[j]], back);
    CountContributingConcat(tables, front, back);
  }

  /** The count does not depend on the order of the events. */
  lemma {:induction false} CountContributingPermutation(tables: Tables, a: seq<Event>, b: seq<Event>)
    requires multiset(a) == multiset(b)
    ensures CountContributing(tables, a) == CountContributing(tables, b)
  {
    if |a| == 0 {
      assert |b| == |multiset(b)| == 0;
    } else {
      var x := a[0];
      assert x in multiset(b);
      var j :| 0 <= j < |b| && b[j] == x;
      CountContributingRemove(tables, b, j);
      assert a == [x] + a[1..];
      assert multiset(a[1..]) == multiset(a) - multiset{x};
      CountContributingPermutation(tables, a[1..], b[..j] + b[j + 1..]);
    }
  }

  /** Each contributing event adds exactly one segment, the others none. */
  lemma {:induction false} SegmentCountAlong(tables: Tables, st: ComposerState, events: seq<Event>, o: Oracle)
    requires WellFormed(tables)
    ensures |ComposeAlong(tables, st, events, o).sections| == |st.sections| + CountContributing(tables, events)
  {
    if |events| > 0 {
      var init, last := events[..|events| - 1], events[|events| - 1];
      SegmentCountAlong(tables, st, init, o);
      CountContributingConcat(tables, init, [last]);
      assert events == init + [last];
      assert CountContributing(tables, [last]) == if Contributes(tables, last) then 1 else 0;
      var before := ComposeAlong(tables, st, init, o);
      if Templated(tables, last) {
        TemplatedStep(tables, before, last, o);
      } else if last.eventType in tables.templates {
        GenericFallbackStep(tables, before, last, o);
      }
    }
  }

  /** Whatever the input order, the segment loop yields one segment per contributing event. */
  lemma SegmentCount(tables: Tables, events: seq<Event>, o: Oracle)
    requires WellFormed(tables)
    ensures |ComposeAlong(tables, Start, SortByTimestamp(events), o).sections| == CountContributing(tables, events)
  {
    SegmentCountAlong(tables, Start, SortByTimestamp(events), o);
    SortByTimestampSorts(events);
    CountContributingPermutation(tables, SortByTimestamp(events), events);
  }

  /** Events that all fall into the silent case leave the waiting message. */
  lemma NoContributionWaits(tables: Tables, events: seq<Event>, o: Oracle)
    requires WellFormed(tables)
    requires CountContributing(tables, events) == 0
    ensures CommentaryWith(tables, events, o) == WaitingMessage
  {
    SegmentCount(tables, events, o);
  }

  /** The counter of a same-type run after its first `k` events: 0 after an odd number, 1 after an even one. */
  lemma {:induction false} RunCounter(tables: Tables, st: ComposerState, run: seq<Event>, o: Oracle, k: nat)
    requires WellFormed(tables)
    requires forall i :: 0 <= i < |run| ==> Templated(tables, run[i]) && run[i].eventType == run[0].eventType
    requires |run| > 0 && st.lastType != Some(run[0].eventType)
    requires 1 <= k <= |run|
    ensures var r := ComposeAlong(tables, st, run[..k], o);
      r.lastType == Some(run[0].eventType) && r.similar == (k - 1) % 2
  {
    var before := ComposeAlong(tables, st, run[..k - 1], o);
    assert run[..k][..k - 1] == run[..k - 1];
    if k > 1 {
      RunCounter(tables, st, run, o, k - 1);
    }
    TemplatedStep(tables, before, run[k - 1], o);
  }

  /**
   * In a run of templated events of one type that follows another type, the
   * situation sentence is added at the 3rd event of the run, then at every
   * 2nd one after it (counted from 0: at the even positions from 2 on).
   */
  lemma SituationPattern(tables: Tables, st: ComposerState, run: seq<Event>, o: Oracle, k: nat)
    requires WellFormed(tables)
    requires forall i :: 0 <= i < |run| ==> Templated(tables, run[i]) && run[i].eventType == run[0].eventType
    requires |run| > 0 && st.lastType != Some(run[0].eventType)
    requires k < |run|
    ensures SituationAdded(tables, ComposeAlong(tables, st, run[..k], o), run[k]) <==> k >= 2 && k % 2 == 0
  {
    if k == 0 {
      assert run[..0] == [];
    } else {
      RunCounter(tables, st, run, o, k);
    }
  }

  /** A segment as it appears in the joined text: itself, or a transition followed by its lower-cased form. */
  predicate Rendered(tables: Tables, piece: string, segment: string)
  {
    piece == segment || exists tr :: tr in tables.transitions && piece == tr + Lower(segment)
  }

  /** The piece the join loop appends, after a space, for segment `n - 1`. */
  lemma CombineLastPiece(tables: Tables, sections: seq<string>, n: nat, o: Oracle, d: nat) returns (piece: string)
    requires WellFormed(tables)
    requires 2 <= n <= |sections|
    ensures Rendered(tables, piece, sections[n - 1])
    ensures Combine(tables, sections, n, o, d).0 == Combine(tables, sections, n - 1, o, d).0 + " " + piece
  {
    var (combined, draw) := Combine(tables, sections, n - 1, o, d);
    if o.coin(draw) {
      var tr := Choice(tables.transitions, o, draw + 1);
      piece := tr + Lower(sections[n - 1]);
      assert combined + " " + tr + Lower(sections[n - 1]) == combined + " " + piece;
    } else {
      piece := sections[n - 1];
    }
  }

  /** The joined text is the space-join of the segments, the first verbatim and each later one rendered. */
  lemma {:induction false} CombineShape(tables: Tables, sections: seq<string>, n: nat, o: Oracle, d: nat) returns (pieces: seq<string>)
    requires WellFormed(tables)
    requires 1 <= n <= |sections|
    ensures |pieces| == n && pieces[0] == sections[0]
    ensures forall i :: 1 <= i < n ==> Rendered(tables, pieces[i], sections[i])
    ensures Combine(tables, sections, n, o, d).0 == Join(pieces, " ")
  {
    if n == 1 {
      pieces := [sections[0]];
    } else {
      var init := CombineShape(tables, sections, n - 1, o, d);
      var piece := CombineLastPiece(tables, sections, n, o, d);
      JoinSnoc(init, piece, " ");
      pieces := init + [piece];
    }
  }

  /** With every coin false no transition is added: the text is the segments joined by single spaces. */
  lemma {:induction false} NoTransitionsIsJoin(tables: Tables, sections: seq<string>, n: nat, o: Oracle, d: nat)
    requires WellFormed(tables)
    requires 1 <= n <= |sections|
    requires forall k :: !o.coin(k)
    ensures Combine(tables, sections, n, o, d) == (Join(sections[..n], " "), d + n - 1)
  {
    if n == 1 {
      assert sections[..1] == [sections[0]];
    } else {
      NoTransitionsIsJoin(tables, sections, n - 1, o, d);
      JoinSnoc(sections[..n - 1], sections[n - 1], " ");
      assert sections[..n] == sections[..n - 1] + [sections[n - 1]];
    }
  }

  /** The text begins with the first segment, unchanged. */
  lemma {:induction false} CombineStartsWithFirst(tables: Tables, sections: seq<string>, n: nat, o: Oracle, d: nat)
    requires WellFormed(tables)
    requires 1 <= n <= |sections|
    ensures |sections[0]| <= |Combine(tables, sections, n, o, d).0|
    ensures Combine(tables, sections, n, o, d).0[..|sections[0]|] == sections[0]
  {
    if n > 1 {
      CombineStartsWithFirst(tables, sections, n - 1, o, d);
    }
  }
}
