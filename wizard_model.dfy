/**
 * The backend multi-step wizard: an ordered list of slides shown one after
 * the other in a carousel inside a modal dialog, with a "next" button that
 * can be locked until a slide's callback unlocks it, a progress bar, and a
 * reset to the pristine setup when the dialog is dismissed.
 *
 * The browser document is replaced by plain values: the built carousel is a
 * `Carousel` (its markup string, its items and the counters jQuery keeps in
 * its `data`), and the dialog around it is a `Dialog` record.
 */
module WizardModel {
  import opened Wrappers

  /** SeverityEnum: notice, info, ok, warning, error. */
  datatype Severity = Notice | Info | Ok | Warning | Error

  /** Severity.getCssClass: the style-name suffix of a severity. */
  function CssClass(severity: Severity): string
  {
    match severity
    case Notice => "notice"
    case Info => "info"
    case Ok => "success"
    case Warning => "warning"
    case Error => "danger"
  }

  /** The class the "next" button carries for a severity. */
  function ButtonClass(severity: Severity): string
  {
    "btn-" + CssClass(severity)
  }

  /** The class the modal root carries for a severity. */
  function ModalClass(severity: Severity): string
  {
    "modal-severity-" + CssClass(severity)
  }

  /** A slide's content: a markup string, or an element whose inner markup is used. */
  datatype Content = Markup(text: string) | Element(innerHtml: string)
  {
    /** The markup the carousel item receives (`.html()` for an element). */
    function Html(): string
    {
      match this
      case Markup(text) => text
      case Element(innerHtml) => innerHtml
    }
  }

  /**
   * A slide callback. `DismissWizard` is the default callback of the final
   * processing slide (it asks the modal to close); `Handler` stands for a
   * caller's closure, of which the model keeps whether it unlocks the next
   * step synchronously.
   */
  datatype Callback = DismissWizard | Handler(name: string, unlocksNext: bool)

  /** Running this callback enables the next button again. */
  predicate UnlocksNext(callback: Option<Callback>)
  {
    callback.Some? && callback.value.Handler? && callback.value.unlocksNext
  }

  datatype Slide = Slide(
    identifier: string,
    title: string,
    content: Content,
    severity: Severity,
    callback: Option<Callback>)

  /** One `carousel-item` of the built carousel; `active` is the class it received when built. */
  datatype Item = Item(identifier: string, html: string, active: bool)

  /** The values `addProgressBar` stores in the carousel's `data`. */
  datatype Counters = Counters(
    initialStep: int,
    slideCount: nat,
    realSlideCount: nat,
    currentIndex: nat,
    currentSlide: nat)

  /** The built carousel: its markup, its items and, once set, its counters. */
  datatype Carousel = Carousel(markup: string, items: seq<Item>, data: Option<Counters>)

  /** WizardSetup: the state that dismissal resets. */
  datatype Setup<V> = Setup(
    slides: seq<Slide>,
    settings: map<string, V>,
    forceSelection: bool,
    carousel: Option<Carousel>)

  /** The `wizard.progress` label with `{0}` and `{1}` substituted. */
  datatype Label = Label(current: nat, total: nat)

  /** The progress bar: `aria-valuenow` (and width in percent) and its label. */
  datatype Progress = Progress(value: int, caption: Label)

  /** The modal dialog that hosts the carousel. */
  datatype Dialog = Dialog(
    title: string,
    nextDisabled: bool,
    nextButtonClasses: set<string>,
    modalClasses: set<string>,
    closeVisible: bool,
    footerVisible: bool,
    progress: Option<Progress>)

  /** One call of a slide callback: the slide element, the shared settings, the identifier. */
  datatype Invocation<V> = Invocation(
    callback: Callback,
    target: Option<Item>,
    settings: map<string, V>,
    identifier: string)

  const FinalSlideIdentifier := "final-processing-slide"
  const CarouselOpen := "<div class=\"carousel slide\" data-bs-ride=\"false\"><div class=\"carousel-inner\" role=\"listbox\">"
  const CarouselClose := "</div></div>"

  /** The carousel item at index i, if there is one (the element a slide callback receives). */
  function ItemAt(c: Carousel, i: nat): Option<Item>
  {
    if i < |c.items| then Some(c.items[i]) else None
  }

  /** The callback call that running a slide's callback on a target records: none without a callback. */
  function CallsFor<V>(slide: Slide, target: Option<Item>, settings: map<string, V>): seq<Invocation<V>>
  {
    if slide.callback.Some? then [Invocation(slide.callback.value, target, settings, slide.identifier)] else []
  }

  /** The setup fixed at construction. */
  function Pristine<V>(): Setup<V>
  {
    Setup([], map[], true, None)
  }

  /** Math.max(1, realSlideCount). */
  function SlideCountOf(realSlideCount: nat): (n: nat)
    ensures n >= 1 && n >= realSlideCount
    ensures n == realSlideCount || n == 1
  {
    if realSlideCount >= 1 then realSlideCount else 1
  }

  /** Math.round(100 / n), for n >= 1. */
  function RoundedPercent(n: nat): int
    requires n >= 1
  {
    (200 + n) / (2 * n)
  }

  /** RoundedPercent(n) is 100/n rounded to the nearest integer, halves upwards. */
  lemma RoundedPercentRounds(n: nat)
    requires n >= 1
    ensures var r := RoundedPercent(n) as real;
      r - 0.5 <= 100.0 / (n as real) < r + 0.5
  {
    var r := RoundedPercent(n);
    assert 2 * n * r <= 200 + n < 2 * n * r + 2 * n;
    var x := 100.0 / (n as real);
    assert x * (n as real) == 100.0;
    assert ((r as real) - 0.5) * (n as real) <= 100.0;
    assert 100.0 < ((r as real) + 0.5) * (n as real);
  }

  /**
   * The initial step is a whole percentage: 100 for a single slide, and 0
   * once there are more than 200 slides.
   */
  lemma RoundedPercentRange(n: nat)
    requires n >= 1
    ensures 0 <= RoundedPercent(n) <= 100
    ensures RoundedPercent(n) == 0 <==> n > 200
    ensures RoundedPercent(n) == 100 <==> n == 1
  {
    var r := RoundedPercent(n);
    assert 2 * n * r <= 200 + n < 2 * n * r + 2 * n;
  }

  /** The progress bar shown for the counters' current slide. */
  function ProgressAt(d: Counters): Progress
  {
    Progress(d.initialStep * d.currentSlide, Label(d.currentSlide, d.slideCount))
  }

  const ItemOpen := "<div class=\"carousel-item\" data-bs-slide=\""
  const ItemMiddle := "\">"
  const ItemClose := "</div>"

  /** The markup of one slide's carousel item. */
  function ItemMarkup(slide: Slide): string
  {
    ItemOpen + slide.identifier + ItemMiddle + slide.content.Html() + ItemClose
  }

  /** The concatenation of markup parts, in order. */
  function Concat(parts: seq<string>): string
  {
    if parts == [] then "" else Concat(parts[..|parts| - 1]) + parts[|parts| - 1]
  }

  /** The item markup of each slide. */
  function ItemParts(slides: seq<Slide>): (parts: seq<string>)
    ensures |parts| == |slides|
    ensures forall i :: 0 <= i < |slides| ==> parts[i] == ItemMarkup(slides[i])
  {
    seq(|slides|, i requires 0 <= i < |slides| => ItemMarkup(slides[i]))
  }

  /** The item markup of all slides, in registration order. */
  function ItemsMarkup(slides: seq<Slide>): string
  {
    Concat(ItemParts(slides))
  }

  /** The whole carousel markup that `generateSlides` builds. */
  function CarouselMarkup(slides: seq<Slide>): string
  {
    CarouselOpen + ItemsMarkup(slides) + CarouselClose
  }

  /** The items of the parsed carousel, the first one marked active. */
  function BuildItems(slides: seq<Slide>): (items: seq<Item>)
    ensures |items| == |slides|
    ensures forall i :: 0 <= i < |items| ==>
      items[i].identifier == slides[i].identifier && items[i].html == slides[i].content.Html()
    ensures forall i :: 0 <= i < |items| ==> (items[i].active <==> i == 0)
  {
    seq(|slides|, i requires 0 <= i < |slides| => Item(slides[i].identifier, slides[i].content.Html(), i == 0))
  }

  /** A freshly built carousel, before `addProgressBar` has stored its counters. */
  function Built(slides: seq<Slide>): Carousel
  {
    Carousel(CarouselMarkup(slides), BuildItems(slides), None)
  }

  /** Concatenating two part lists concatenates their markup. */
  lemma {:induction false} ConcatAppend(a: seq<string>, b: seq<string>)
    ensures Concat(a + b) == Concat(a) + Concat(b)
    decreases |b|
  {
    if b == [] {
      assert a + b == a;
    } else {
      var b' := b[..|b| - 1];
      assert (a + b)[..|a + b| - 1] == a + b';
      assert (a + b)[|a + b| - 1] == b[|b| - 1];
      ConcatAppend(a, b');
    }
  }

  /** Registering one more slide appends exactly its item to the markup. */
  lemma ItemsMarkupExtend(slides: seq<Slide>, i: nat)
    requires i < |slides|
    ensures ItemsMarkup(slides[..i + 1]) == ItemsMarkup(slides[..i]) + ItemMarkup(slides[i])
  {
    assert ItemParts(slides[..i + 1]) == ItemParts(slides[..i]) + [ItemMarkup(slides[i])];
    assert (ItemParts(slides[..i]) + [ItemMarkup(slides[i])])[..i] == ItemParts(slides[..i]);
  }

  /**
   * Slide k's item sits in the markup after the items of the slides
   * registered before it and before those registered after it.
   */
  lemma ItemsMarkupAt(slides: seq<Slide>, k: nat)
    requires k < |slides|
    ensures ItemsMarkup(slides) ==
      ItemsMarkup(slides[..k]) + ItemMarkup(slides[k]) + ItemsMarkup(slides[k + 1..])
  {
    var parts := ItemParts(slides);
    assert parts == ItemParts(slides[..k]) + [ItemMarkup(slides[k])] + ItemParts(slides[k + 1..]);
    assert [ItemMarkup(slides[k])][..0] == [];
    ConcatAppend(ItemParts(slides[..k]), [ItemMarkup(slides[k])]);
    ConcatAppend(ItemParts(slides[..k]) + [ItemMarkup(slides[k])], ItemParts(slides[k + 1..]));
  }

  /** The carousel markup opens the carousel, holds one item per slide in order, and closes it. */
  lemma CarouselMarkupShape(slides: seq<Slide>, k: nat)
    requires k < |slides|
    ensures CarouselMarkup(slides) ==
      CarouselOpen + ItemsMarkup(slides[..k]) + ItemMarkup(slides[k]) + ItemsMarkup(slides[k + 1..]) + CarouselClose
  {
    ItemsMarkupAt(slides, k);
    Regroup(CarouselOpen, ItemsMarkup(slides[..k]), ItemMarkup(slides[k]), ItemsMarkup(slides[k + 1..]), CarouselClose);
  }

  /** String concatenation regrouped around a middle part. It proves unaided; stating it separately keeps the callers' proofs small. */
  lemma Regroup(a: string, b: string, c: string, d: string, e: string)
    ensures a + (b + c + d) + e == a + b + c + d + e
  {
  }

  /** Once built, the carousel is the build of a prefix of the slide list. */
  ghost predicate CarouselMatches<V>(s: Setup<V>)
  {
    s.carousel.Some? ==>
      var c := s.carousel.value;
      && |c.items| <= |s.slides|
      && c.markup == CarouselMarkup(s.slides[..|c.items|])
      && (forall i :: 0 <= i < |c.items| ==>
            c.items[i] == Item(s.slides[i].identifier, s.slides[i].content.Html(), i == 0))
      // The counters agree with the carousel they are stored on.
      && (c.data.Some? ==>
            var d := c.data.value;
            && d.realSlideCount == |c.items|
            && d.slideCount == SlideCountOf(|c.items|)
            && d.initialStep == RoundedPercent(d.slideCount)
            && d.currentSlide == d.currentIndex + 1
            && d.currentIndex < d.slideCount)
  }

  /** A carousel freshly built from all registered slides matches them. */
  lemma BuiltMatches<V>(s: Setup<V>)
    requires s.carousel == Some(Built(s.slides))
    ensures CarouselMatches(s)
  {
    assert s.slides[..|s.slides|] == s.slides;
  }

  /**
   * An open dialog shows the current slide's title and severity classes,
   * its progress bar exists iff there is more than one slide, and its footer
   * and close control disappear together, only once the last slide is reached.
   */
  ghost predicate DialogMatches<V>(s: Setup<V>, dlg: Dialog)
  {
    && s.carousel.Some?
    && s.carousel.value.data.Some?
    && var n := s.carousel.value.data.value;
    && n.currentIndex < |s.slides|
    && dlg.title == s.slides[n.currentIndex].title
    && dlg.nextButtonClasses == {ButtonClass(s.slides[n.currentIndex].severity)}
    && dlg.modalClasses == {ModalClass(s.slides[n.currentIndex].severity)}
    && dlg.closeVisible == dlg.footerVisible
    && (dlg.progress.Some? <==> n.slideCount > 1)
    && (dlg.footerVisible && dlg.progress.Some? ==> dlg.progress.value == ProgressAt(n))
    && (!dlg.footerVisible ==> n.currentSlide >= n.realSlideCount)
    && (dlg.footerVisible ==> n.currentIndex == 0 || n.currentSlide < n.realSlideCount)
  }

  /** The dialog with the next button's `disabled` property set; nothing else about the dialog changes. */
  function WithNextDisabled(dialog: Option<Dialog>, disabled: bool): (r: Option<Dialog>)
    ensures r.Some? <==> dialog.Some?
    ensures r.Some? ==> r.value.nextDisabled == disabled
    ensures r.Some? ==> r.value.(nextDisabled := dialog.value.nextDisabled) == dialog.value
  {
    if dialog.Some? then Some(dialog.value.(nextDisabled := disabled)) else None
  }

  /** Locking (or unlocking) twice is locking (or unlocking) once; the last of a lock and an unlock wins. */
  lemma NextDisabledIdempotent(dialog: Option<Dialog>, disabled: bool, again: bool)
    ensures WithNextDisabled(WithNextDisabled(dialog, disabled), disabled) == WithNextDisabled(dialog, disabled)
    ensures WithNextDisabled(WithNextDisabled(dialog, disabled), again) == WithNextDisabled(dialog, again)
  {
  }
}
