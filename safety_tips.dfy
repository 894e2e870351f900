/**
 * The personalized-safety-tips form: the schema on its two inputs, the
 * submission to the tips flow, and how the flow's text is rendered as
 * paragraphs, one per non-blank line.
 */
module SafetyTips {
  import opened Wrappers
  import opened JsText
  import opened FormResolver

  const LocationMessage: string := "Location must be at least 2 characters."
  const EventsMessage: string := "Please describe recent events (at least 10 characters)."

  /** `z.string().min(2)` on the location. */
  function LocationIssues(location: string): (issues: seq<string>)
    ensures issues == [] <==> |location| >= 2
    ensures issues != [] ==> issues == [LocationMessage]
  {
    MinLengthIssues(location, 2, LocationMessage)
  }

  /** `z.string().min(10)` on the description of recent events. */
  function EventsIssues(recentDisasterEvents: string): (issues: seq<string>)
    ensures issues == [] <==> |recentDisasterEvents| >= 10
    ensures issues != [] ==> issues == [EventsMessage]
  {
    MinLengthIssues(recentDisasterEvents, 10, EventsMessage)
  }

  /** One rendered `<p>`: its React key (the line's index) and its text. */
  datatype Paragraph = Paragraph(key: nat, text: string)

  /** `item.trim() !== ""`: the piece holds something besides white space. */
  predicate HasText(item: string) {
    Trim(item) != []
  }

  /**
   * `item.trim() !== "" && <p key={index}>{item}</p>` over `pieces`, whose
   * indices start at `from`: the pieces with text, untrimmed and in order,
   * each keyed by its own index.
   */
  function KeepNonBlank(pieces: seq<string>, from: nat): (ps: seq<Paragraph>)
    ensures |ps| <= |pieces|
  {
    if pieces == [] then []
    else
      var rest := KeepNonBlank(pieces[1..], from + 1);
      if HasText(pieces[0]) then [Paragraph(from, pieces[0])] + rest else rest
  }

  /** Every paragraph is the piece its key names, and that piece has text. */
  predicate DrawnFrom(ps: seq<Paragraph>, pieces: seq<string>, from: nat) {
    forall j :: 0 <= j < |ps| ==>
      && from <= ps[j].key < from + |pieces|
      && ps[j].text == pieces[ps[j].key - from]
      && HasText(ps[j].text)
  }

  /** Keys strictly increase, so React keys are distinct and order is kept. */
  predicate InKeyOrder(ps: seq<Paragraph>) {
    forall j, j' :: 0 <= j < j' < |ps| ==> ps[j].key < ps[j'].key
  }

  predicate HasKey(ps: seq<Paragraph>, key: nat) {
    exists j :: 0 <= j < |ps| && ps[j].key == key
  }

  /** Every piece with text has its paragraph. */
  predicate CoversShown(ps: seq<Paragraph>, pieces: seq<string>, from: nat) {
    forall i :: 0 <= i < |pieces| && HasText(pieces[i]) ==> HasKey(ps, from + i)
  }

  lemma {:induction false} KeptAreShownPieces(pieces: seq<string>, from: nat)
    ensures DrawnFrom(KeepNonBlank(pieces, from), pieces, from)
  {
    if pieces != [] {
      KeptAreShownPieces(pieces[1..], from + 1);
      var rest := KeepNonBlank(pieces[1..], from + 1);
      assert DrawnFrom(rest, pieces, from) by {
        forall j | 0 <= j < |rest| ensures rest[j].text == pieces[rest[j].key - from] {
          assert pieces[1..][rest[j].key - (from + 1)] == pieces[rest[j].key - from];
        }
      }
      if HasText(pieces[0]) {
        var ps := [Paragraph(from, pieces[0])] + rest;
        assert forall j :: 1 <= j < |ps| ==> ps[j] == rest[j - 1];
      }
    }
  }

  lemma {:induction false} KeptInOrder(pieces: seq<string>, from: nat)
    ensures InKeyOrder(KeepNonBlank(pieces, from))
  {
    if pieces != [] {
      KeptInOrder(pieces[1..], from + 1);
      KeptAreShownPieces(pieces[1..], from + 1);
      var rest := KeepNonBlank(pieces[1..], from + 1);
      var ps := KeepNonBlank(pieces, from);
      if HasText(pieces[0]) {
        assert forall j :: 1 <= j < |ps| ==> ps[j] == rest[j - 1] && ps[j].key > from;
      }
    }
  }

  lemma {:induction false} KeepsEveryShownPiece(pieces: seq<string>, from: nat)
    ensures CoversShown(KeepNonBlank(pieces, from), pieces, from)
  {
    if pieces != [] {
      KeepsEveryShownPiece(pieces[1..], from + 1);
      var rest := KeepNonBlank(pieces[1..], from + 1);
      var ps := KeepNonBlank(pieces, from);
      forall i | 0 <= i < |pieces| && HasText(pieces[i]) ensures HasKey(ps, from + i) {
        if i == 0 {
          assert ps[0].key == from;
        } else {
          assert pieces[1..][i - 1] == pieces[i];
          assert HasKey(rest, from + 1 + (i - 1));
          var j :| 0 <= j < |rest| && rest[j].key == from + i;
          if HasText(pieces[0]) {
            assert ps[j + 1].key == from + i;
          } else {
            assert ps[j].key == from + i;
          }
        }
      }
    }
  }

  /** The paragraphs rendered for the flow's `safetyRecommendations`. */
  function Paragraphs(text: string): seq<Paragraph> {
    KeepNonBlank(SplitOn(text, '\n'), 0)
  }

  /**
   * The paragraphs are exactly the lines of the text that hold a
   * non-white-space character, untrimmed and in their original order; none
   * of them contains a line break.
   */
  lemma ParagraphsAreNonBlankLines(text: string)
    ensures var lines := SplitOn(text, '\n'); var ps := Paragraphs(text);
      && (forall j :: 0 <= j < |ps| ==>
            ps[j].key < |lines| && ps[j].text == lines[ps[j].key] && !IsBlank(ps[j].text) && '\n' !in ps[j].text)
      && InKeyOrder(ps)
      && (forall i :: 0 <= i < |lines| && !IsBlank(lines[i]) ==> HasKey(ps, i))
  {
    var lines := SplitOn(text, '\n');
    var ps := Paragraphs(text);
    KeptAreShownPieces(lines, 0);
    KeptInOrder(lines, 0);
    KeepsEveryShownPiece(lines, 0);
    forall j | 0 <= j < |ps| ensures !IsBlank(ps[j].text) {
      TrimEmptyIff(ps[j].text);
    }
    forall i | 0 <= i < |lines| && !IsBlank(lines[i]) ensures HasKey(ps, i) {
      TrimEmptyIff(lines[i]);
    }
  }

  /** A text renders no paragraph exactly when it is blank (line breaks count as white space). */
  lemma NoParagraphsIffBlank(text: string)
    ensures Paragraphs(text) == [] <==> IsBlank(text)
  {
    var lines := SplitOn(text, '\n');
    JoinBlankIff(lines, '\n');
    if Paragraphs(text) == [] {
      KeepsEveryShownPiece(lines, 0);
      forall i | 0 <= i < |lines| ensures IsBlank(lines[i]) {
        TrimEmptyIff(lines[i]);
      }
    } else {
      KeptAreShownPieces(lines, 0);
      var p := Paragraphs(text)[0];
      TrimEmptyIff(p.text);
    }
  }

  /** The flow's input. */
  datatype TipsInput = TipsInput(location: string, recentDisasterEvents: string)

  /** The flow's answer. */
  datatype TipsOutput = TipsOutput(safetyRecommendations: string)

  class SafetyTipsForm {
    var location: string
    var recentDisasterEvents: string
    var locationError: Option<string>
    var eventsError: Option<string>
    var result: Option<TipsOutput>

    /** The default values: both inputs empty, no errors, no result. */
    constructor ()
      ensures location == "" && recentDisasterEvents == ""
      ensures locationError.None? && eventsError.None? && result.None?
    {
      location, recentDisasterEvents := "", "";
      locationError, eventsError, result := None, None, None;
    }

    method SetLocation(text: string)
      modifies this`location
      ensures location == text
    {
      location := text;
    }

    method SetRecentDisasterEvents(text: string)
      modifies this`recentDisasterEvents
      ensures recentDisasterEvents == text
    {
      recentDisasterEvents := text;
    }

    /** Both inputs are long enough. */
    predicate PassesSchema()
      reads this
    {
      LocationIssues(location) == [] && EventsIssues(recentDisasterEvents) == []
    }

    /**
     * `form.handleSubmit(onSubmit)`: the resolver's first issue per field
     * replaces the field errors; when both inputs pass, `onSubmit` clears
     * the previous result, sends both inputs unchanged to the flow, and
     * shows its answer (`outcome`, `None` when the call fails).
     */
    method Submit(outcome: Option<TipsOutput>) returns (request: Option<TipsInput>)
      modifies this`locationError, this`eventsError, this`result
      ensures locationError == FirstIssue(LocationIssues(location))
      ensures eventsError == FirstIssue(EventsIssues(recentDisasterEvents))
      ensures !PassesSchema() ==> request.None? && result == old(result)
      ensures PassesSchema() ==> request == Some(TipsInput(location, recentDisasterEvents)) && result == outcome
    {
      locationError := FirstIssue(LocationIssues(location));
      eventsError := FirstIssue(EventsIssues(recentDisasterEvents));
      request := None;
      if !PassesSchema() {
        return;
      }
      result := None;
      request := Some(TipsInput(location, recentDisasterEvents));
      result := outcome;
    }

    /** The paragraphs on screen: none until a result arrives. */
    function Rendered(): (ps: seq<Paragraph>)
      reads this
      ensures result.None? ==> ps == []
      ensures result.Some? ==> ps == Paragraphs(result.value.safetyRecommendations)
    {
      if result.Some? then Paragraphs(result.value.safetyRecommendations) else []
    }
  }
}
