/**
 * The thank-you screen (app/obrigado/page.tsx): it loads the stored answers
 * once on mount, keeps a simulated "views today" counter, and opens the
 * WhatsApp deep link with the generated message.
 */
module ThankYou {
  import opened Wrappers
  import opened Answers
  import opened Storage
  import opened Counters
  import opened Handoff
  import Quiz

  const ViewsFloor: int := 35
  const ViewsCeiling: int := 765

  /** `baseViews`: the floor-to-ceiling interpolation at this minute of the day. */
  function BaseViews(h: Hour, m: Minute): int
  {
    Interpolate(ViewsFloor, ViewsCeiling, MinuteOfDay(h, m))
  }

  /** `randomVariation`: `Math.floor(Math.random() * 29) - 8`. */
  function ViewsVariation(u: RandomDraw): (v: int)
    ensures -8 <= v <= 20
  {
    Jitter(u, 29, 8)
  }

  /**
   * `calculateViewsBasedOnTime()` for the Brasília clock `h:m` and the draw
   * `u`: always within [35, 765], and exactly base plus variation whenever
   * that sum is already inside.
   */
  function ViewsBasedOnTime(h: Hour, m: Minute, u: RandomDraw): (views: int)
    ensures ViewsFloor <= views <= ViewsCeiling
    ensures ViewsFloor <= BaseViews(h, m) + ViewsVariation(u) <= ViewsCeiling
      ==> views == BaseViews(h, m) + ViewsVariation(u)
  {
    SimulatedCount(ViewsFloor, ViewsCeiling, MinuteOfDay(h, m), ViewsVariation(u))
  }

  /** The counter read from the UTC minute of the day through the Brasília wall clock. */
  function ViewsAt(utcMinute: int, u: RandomDraw): (views: int)
    ensures ViewsFloor <= views <= ViewsCeiling
  {
    var hm := ClockOf(BrasiliaMinuteOfDay(utcMinute));
    ViewsBasedOnTime(hm.0, hm.1, u)
  }

  /** The base count is 35 at midnight, never decreases as the day advances, and stays below 765. */
  lemma BaseViewsShape(h: Hour, m: Minute, h': Hour, m': Minute)
    requires MinuteOfDay(h, m) <= MinuteOfDay(h', m')
    ensures BaseViews(0, 0) == ViewsFloor
    ensures ViewsFloor <= BaseViews(h, m) <= BaseViews(h', m') < ViewsCeiling
  {
    InterpolateBounds(ViewsFloor, ViewsCeiling, MinuteOfDay(h, m), MinuteOfDay(h', m'));
  }

  /**
   * What the mount effect leaves in `quizAnswers`: the stored record when the
   * slot holds a serialized one; None (the state stays null) when the slot is
   * absent, empty or holds text that does not parse.
   */
  function Loaded(slot: Option<SlotText>): (r: Option<QuizAnswer>)
    ensures r.None? <==> slot.None? || slot.value.Unparseable?
    ensures forall a: QuizAnswer :: slot == Some(Serialized(a)) ==> r == Some(a)
  {
    if slot.Some? && IsTruthy(slot.value) then Parse(slot.value) else None
  }

  class ThankYouPage {
    var quizAnswers: Option<QuizAnswer>
    var todayViews: int
    /** The URL handed to `window.open`, once called. */
    var openedUrl: Option<string>
    const storage: LocalStorage

    /** Mounting: no answers yet, the counter at its initial 35, nothing opened. */
    constructor (storage: LocalStorage)
      ensures this.storage == storage
      ensures quizAnswers == None && todayViews == ViewsFloor && openedUrl == None
    {
      this.storage := storage;
      quizAnswers := None;
      todayViews := ViewsFloor;
      openedUrl := None;
    }

    /**
     * The mount effect: reads the slot once; a serialized record becomes
     * `quizAnswers`, anything else leaves it as it was. No error escapes.
     */
    method LoadAnswers()
      modifies this`quizAnswers
      ensures quizAnswers == if Loaded(storage.quizAnswers).Some? then Loaded(storage.quizAnswers) else old(quizAnswers)
    {
      var savedAnswers := storage.quizAnswers;
      if savedAnswers.Some? && IsTruthy(savedAnswers.value) {
        var parsedAnswers := Parse(savedAnswers.value);
        if parsedAnswers.Some? {
          quizAnswers := parsedAnswers;
        }
      }
    }

    /** `updateStats`, the counter half: the views counter for this clock reading and draw. */
    method UpdateViews(h: Hour, m: Minute, u: RandomDraw)
      modifies this`todayViews
      ensures todayViews == ViewsBasedOnTime(h, m, u)
      ensures ViewsFloor <= todayViews <= ViewsCeiling
    {
      todayViews := ViewsBasedOnTime(h, m, u);
    }

    /** `openWhatsApp()`: opens the deep link carrying the message generated from the loaded answers. */
    method OpenWhatsApp(encodeURIComponent: string -> string)
      modifies this`openedUrl
      ensures openedUrl == Some(WhatsAppUrl(GenerateWhatsAppMessage(quizAnswers), encodeURIComponent))
    {
      var message := GenerateWhatsAppMessage(quizAnswers);
      openedUrl := Some(WhatsAppPrefix + encodeURIComponent(message));
    }
  }

  /**
   * The whole funnel: a visitor clicks an option on each of the six questions,
   * the thank-you screen mounts on the slot the quiz left behind, and the
   * visitor opens WhatsApp. The message carries the labels of answers 2, 4, 5
   * and 6, line by line, and the URL carries the message after the fixed prefix.
   */
  method CompleteFunnel(stale: Option<SlotText>, values: seq<string>, encodeURIComponent: string -> string)
    returns (message: string, url: string)
    requires |values| == 6
    requires OptionLabel(2, values[1]).Some? && OptionLabel(4, values[3]).Some?
    requires OptionLabel(5, values[4]).Some? && OptionLabel(6, values[5]).Some?
    ensures SplitLines(message) == PersonalisedLines(
      OptionLabel(2, values[1]).value, OptionLabel(4, values[3]).value,
      OptionLabel(5, values[4]).value, OptionLabel(6, values[5]).value)
    ensures |WhatsAppPrefix| <= |url|
    ensures url[..|WhatsAppPrefix|] == WhatsAppPrefix && url[|WhatsAppPrefix|..] == encodeURIComponent(message)
  {
    var slot, route, question := Quiz.CompleteQuiz(stale, values);
    var storage := new LocalStorage(slot);
    var page := new ThankYouPage(storage);
    page.LoadAnswers();
    page.OpenWhatsApp(encodeURIComponent);
    var a := slot.value.record;
    assert page.quizAnswers == Some(a);
    message := GenerateWhatsAppMessage(page.quizAnswers);
    url := page.openedUrl.value;
    assert a.question2 == Some(values[1]) && a.question4 == Some(values[3]) by {
      assert a.Get(2) == Some(values[1]) && a.Get(4) == Some(values[3]);
    }
    assert a.question5 == Some(values[4]) && a.question6 == Some(values[5]) by {
      assert a.Get(5) == Some(values[4]) && a.Get(6) == Some(values[5]);
    }
    MessageLines(a);
  }
}
