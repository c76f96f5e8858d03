/**
 * The wizard controller: a class around the mutable setup, whose methods
 * are the wizard's public operations and the handlers of the dialog and
 * carousel events.
 */
module BackendWizard {
  import opened Wrappers
  import opened WizardModel

  class Wizard<V> {
    var setup: Setup<V>
    const originalSetup: Setup<V>
    /** The modal hosting the carousel, once shown. */
    var dialog: Option<Dialog>
    /** Every slide-callback call so far, in order. */
    var invocations: seq<Invocation<V>>
    /** How often Modal.dismiss has been asked to close the modal. */
    var dismissRequests: nat

    ghost predicate Valid()
      reads this`setup, this`dialog
    {
      && originalSetup == Pristine()
      && CarouselMatches(setup)
      && (dialog.Some? ==> DialogMatches(setup, dialog.value))
    }

    /** The carousel counters. */
    function Data(): Counters
      reads this`setup
      requires setup.carousel.Some? && setup.carousel.value.data.Some?
    {
      setup.carousel.value.data.value
    }

    /** The next button can be pressed and the carousel has another item to slide to. */
    ghost predicate CanAdvance()
      reads this`setup, this`dialog
      requires Valid()
    {
      && dialog.Some?
      && !dialog.value.nextDisabled
      && dialog.value.footerVisible
      && Data().realSlideCount > 1
    }

    /** The last slide has been reached: no close control, no footer. */
    ghost predicate PastNoReturn()
      reads this`dialog
    {
      dialog.Some? && !dialog.value.closeVisible && !dialog.value.footerVisible
    }

    /** The slide the carousel currently shows. */
    function Current(): Slide
      reads this`setup
      requires setup.carousel.Some? && setup.carousel.value.data.Some?
      requires Data().currentIndex < |setup.slides|
    {
      setup.slides[Data().currentIndex]
    }

    constructor ()
      ensures Valid()
      ensures setup == Pristine() && originalSetup == setup
      ensures dialog == None && invocations == [] && dismissRequests == 0
    {
      setup := Pristine();
      originalSetup := Pristine();
      dialog := None;
      invocations := [];
      dismissRequests := 0;
    }

    /** Stores a setting; the last write for a key wins. */
    method Set(key: string, value: V)
      requires Valid()
      modifies this`setup
      ensures Valid()
      ensures key in setup.settings && setup.settings[key] == value
      ensures setup.settings.Keys == old(setup.settings.Keys) + {key}
      ensures forall k :: k in old(setup.settings) && k != key ==> setup.settings[k] == old(setup.settings[k])
      ensures setup == old(setup).(settings := setup.settings)
    {
      setup := setup.(settings := setup.settings[key := value]);
    }

    /** Appends one slide at the end of the slide list. */
    method AddSlide(identifier: string, title: string, content: Content, severity: Severity, callback: Option<Callback>)
      requires Valid()
      modifies this`setup
      ensures Valid()
      ensures setup.slides == old(setup.slides) + [Slide(identifier, title, content, severity, callback)]
      ensures setup == old(setup).(slides := setup.slides)
    {
      var slides := setup.slides + [Slide(identifier, title, content, severity, callback)];
      if setup.carousel.Some? {
        assert slides[..|setup.carousel.value.items|] == setup.slides[..|setup.carousel.value.items|];
      }
      setup := setup.(slides := slides);
    }

    /** `addSlide(identifier, title)`: content defaults to '' and severity to info, no callback. */
    method AddSlideWithDefaults(identifier: string, title: string)
      requires Valid()
      modifies this`setup
      ensures Valid()
      ensures setup.slides == old(setup.slides) + [Slide(identifier, title, Markup(""), Info, None)]
      ensures setup == old(setup).(slides := setup.slides)
    {
      AddSlide(identifier, title, Markup(""), Info, None);
    }

    /**
     * Appends the final processing slide: the loaded spinner markup wrapped in
     * a centred container, info severity, and a callback that dismisses the
     * wizard when none is given.
     */
    method AddFinalProcessingSlide(callback: Option<Callback>, spinnerMarkup: string, processingTitle: string)
      requires Valid()
      modifies this`setup
      ensures Valid()
      ensures setup.slides == old(setup.slides) + [Slide(
        FinalSlideIdentifier,
        processingTitle,
        Markup("<div class=\"text-center\">" + spinnerMarkup + "</div>"),
        Info,
        Some(if callback.Some? then callback.value else DismissWizard))]
      ensures setup == old(setup).(slides := setup.slides)
    {
      var cb := if callback.None? then DismissWizard else callback.value;
      AddSlide(FinalSlideIdentifier, processingTitle,
        Markup("<div class=\"text-center\">" + spinnerMarkup + "</div>"), Info, Some(cb));
    }

    /** Builds the carousel once; afterwards returns the same carousel. */
    method GenerateSlides() returns (c: Carousel)
      requires Valid()
      modifies this`setup
      ensures Valid()
      ensures setup.carousel == Some(c)
      ensures old(setup.carousel).Some? ==> setup == old(setup)
      ensures old(setup.carousel).None? ==> c == Built(setup.slides) && setup == old(setup).(carousel := Some(c))
    {
      if setup.carousel.Some? {
        return setup.carousel.value;
      }
      var slides := setup.slides;
      // The item markup is gathered first and wrapped in the carousel's
      // opening and closing markup afterwards; the resulting string is the same.
      var items := "";
      var i := 0;
      while i < |slides|
        invariant 0 <= i <= |slides|
        invariant items == ItemsMarkup(slides[..i])
        modifies {}
      {
        var slide := slides[i];
        ItemsMarkupExtend(slides, i);
        items := items + (ItemOpen + slide.identifier + ItemMiddle + slide.content.Html() + ItemClose);
        i := i + 1;
      }
      assert slides[..|slides|] == slides;
      var markup := CarouselOpen + items + CarouselClose;
      c := Carousel(markup, BuildItems(slides), None);
      setup := setup.(carousel := Some(c));
      BuiltMatches(setup);
    }

    /** The carousel, built on first access. */
    method GetComponent() returns (c: Carousel)
      requires Valid()
      modifies this`setup
      ensures Valid()
      ensures setup.carousel == Some(c)
      ensures old(setup.carousel).Some? ==> setup == old(setup)
      ensures old(setup.carousel).None? ==> c == Built(setup.slides) && setup == old(setup).(carousel := Some(c))
    {
      if setup.carousel.None? {
        var _ := GenerateSlides();
      }
      c := setup.carousel.value;
    }

    /** Disables the next button of the dialog hosting the carousel. */
    method LockNextStep()
      requires Valid() && setup.carousel.Some?
      modifies this`dialog
      ensures Valid()
      ensures dialog == WithNextDisabled(old(dialog), true)
      ensures dialog.Some? ==> dialog.value.nextDisabled
    {
      dialog := WithNextDisabled(dialog, true);
    }

    /** Enables the next button of the dialog hosting the carousel. */
    method UnlockNextStep()
      requires Valid() && setup.carousel.Some?
      modifies this`dialog
      ensures Valid()
      ensures dialog == WithNextDisabled(old(dialog), false)
      ensures dialog.Some? ==> !dialog.value.nextDisabled
    {
      dialog := WithNextDisabled(dialog, false);
    }

    method SetForceSelection(force: bool)
      requires Valid()
      modifies this`setup
      ensures Valid()
      ensures setup == old(setup).(forceSelection := force)
    {
      setup := setup.(forceSelection := force);
    }

    /** Modal.dismiss: asks the modal to close; the reset follows on the dismissed event. */
    method Dismiss()
      modifies this`dismissRequests
      ensures dismissRequests == old(dismissRequests) + 1
    {
      dismissRequests := dismissRequests + 1;
    }

    /** Calls the slide's callback, if it has one, with the slide element, the shared settings and the identifier. */
    method RunSlideCallback(slide: Slide, target: Option<Item>)
      requires Valid() && setup.carousel.Some?
      modifies this`invocations, this`dialog, this`dismissRequests
      ensures Valid()
      ensures invocations == old(invocations) + CallsFor(slide, target, setup.settings)
      ensures dismissRequests == old(dismissRequests) + (if slide.callback == Some(DismissWizard) then 1 else 0)
      ensures dialog == if UnlocksNext(slide.callback) then WithNextDisabled(old(dialog), false) else old(dialog)
    {
      if slide.callback.Some? {
        var callback := slide.callback.value;
        invocations := invocations + [Invocation(callback, target, setup.settings, slide.identifier)];
        match callback
        case DismissWizard =>
          Dismiss();
        case Handler(_, unlocksNext) =>
          if unlocksNext {
            UnlockNextStep();
          }
      }
    }

    /**
     * Stores the counters on the carousel and, when there is more than one
     * slide, puts a progress bar showing the first step into the dialog.
     */
    method AddProgressBar()
      requires setup.carousel.Some? && CarouselMatches(setup)
      modifies this`setup, this`dialog
      ensures CarouselMatches(setup)
      ensures setup.carousel.Some? && setup.carousel.value.data.Some?
      ensures var n := |setup.carousel.value.items|;
        Data() == Counters(RoundedPercent(SlideCountOf(n)), SlideCountOf(n), n, 0, 1)
      ensures Data().slideCount >= 1 && Data().initialStep == RoundedPercent(Data().slideCount)
      ensures setup == old(setup).(carousel := Some(old(setup.carousel.value).(data := Some(Data()))))
      ensures dialog == if old(dialog).Some? then
          Some(old(dialog.value).(progress := if Data().slideCount > 1 then Some(ProgressAt(Data())) else None))
        else old(dialog)
    {
      var c := setup.carousel.value;
      var realSlideCount := |c.items|;
      var slideCount := SlideCountOf(realSlideCount);
      var initialStep := RoundedPercent(slideCount);
      var data := Counters(initialStep, slideCount, realSlideCount, 0, 1);
      setup := setup.(carousel := Some(c.(data := Some(data))));
      if dialog.Some? {
        dialog := Some(dialog.value.(progress := if slideCount > 1 then Some(Progress(initialStep, Label(1, slideCount))) else None));
      }
    }

    /**
     * Modal.advanced: opens the modal on the first slide's title and
     * severity with an enabled next button, then runs the modal's callback,
     * which stores the counters and adds the progress bar.
     */
    method OpenModal(first: Slide)
      requires Valid() && setup.carousel.Some?
      requires |setup.slides| >= 1 && first == setup.slides[0]
      modifies this`setup, this`dialog
      ensures Valid()
      ensures setup.carousel.Some? && setup.carousel.value.data.Some?
      ensures setup == old(setup).(carousel := Some(old(setup.carousel.value).(data := Some(Data()))))
      ensures Data().currentIndex == 0 && Data().currentSlide == 1
      ensures dialog == Some(Dialog(first.title, false, {ButtonClass(first.severity)}, {ModalClass(first.severity)},
        true, true, if Data().slideCount > 1 then Some(ProgressAt(Data())) else None))
    {
      dialog := Some(Dialog(
        first.title,
        false,
        {ButtonClass(first.severity)},
        {ModalClass(first.severity)},
        true,
        true,
        None));
      AddProgressBar();
    }

    /**
     * Builds the carousel, opens the modal on the first slide and, under
     * forced selection, locks the next button.
     */
    method Show()
      requires Valid() && |setup.slides| >= 1
      modifies this`setup, this`dialog
      ensures Valid()
      ensures setup.slides == old(setup.slides) && setup.settings == old(setup.settings)
      ensures setup.forceSelection == old(setup.forceSelection)
      ensures dialog.Some? && setup.carousel.Some? && setup.carousel.value.data.Some?
      ensures old(setup.carousel).None? ==> setup.carousel.value.items == BuildItems(setup.slides)
      ensures old(setup.carousel).Some? ==> setup.carousel.value == old(setup.carousel.value).(data := setup.carousel.value.data)
      ensures Data().currentIndex == 0 && Data().currentSlide == 1
      ensures dialog.value.title == setup.slides[0].title
      ensures dialog.value.nextButtonClasses == {ButtonClass(setup.slides[0].severity)}
      ensures dialog.value.closeVisible && dialog.value.footerVisible
      ensures dialog.value.progress.Some? <==> |setup.carousel.value.items| > 1
      ensures dialog.value.nextDisabled <==> setup.forceSelection
    {
      var _ := GenerateSlides();
      var firstSlide := setup.slides[0];
      OpenModal(firstSlide);
      if setup.forceSelection {
        LockNextStep();
      }
    }

    /** The `wizard-visible` handler: runs the first slide's callback on the first item. */
    method OnShown()
      requires Valid() && dialog.Some? && |setup.slides| >= 1
      modifies this`invocations, this`dialog, this`dismissRequests
      ensures Valid()
      ensures invocations == old(invocations) + CallsFor(setup.slides[0], ItemAt(setup.carousel.value, 0), setup.settings)
      ensures dialog == if UnlocksNext(setup.slides[0].callback) then WithNextDisabled(old(dialog), false) else old(dialog)
      ensures dismissRequests == old(dismissRequests) + (if setup.slides[0].callback == Some(DismissWizard) then 1 else 0)
    {
      var firstSlide := setup.slides[0];
      var target := ItemAt(setup.carousel.value, 0);
      RunSlideCallback(firstSlide, target);
      assert setup == old(setup);
    }

    /**
     * The `slide.bs.carousel` handler: advances both counters, shows the new
     * slide's title and severity, and either updates the progress bar or,
     * on the last slide, removes the close control and hides the footer.
     */
    method OnSlide()
      requires Valid() && dialog.Some?
      requires Data().currentIndex + 1 < Data().realSlideCount
      modifies this`setup, this`dialog
      ensures Valid() && dialog.Some?
      ensures setup.slides == old(setup.slides) && setup.settings == old(setup.settings)
      ensures setup.forceSelection == old(setup.forceSelection)
      ensures setup.carousel.Some? && setup.carousel.value.data.Some?
      ensures setup.carousel.value == old(setup.carousel.value).(data := Some(Data()))
      ensures Data() == old(Data()).(currentIndex := old(Data().currentIndex) + 1, currentSlide := old(Data().currentSlide) + 1)
      ensures dialog.value.title == Current().title
      ensures dialog.value.nextButtonClasses == {ButtonClass(Current().severity)}
      ensures dialog.value.modalClasses == {ModalClass(Current().severity)}
      ensures dialog.value.nextDisabled == old(dialog.value.nextDisabled)
      ensures Data().currentSlide >= Data().realSlideCount ==>
        PastNoReturn() && dialog.value.progress == old(dialog.value.progress)
      ensures Data().currentSlide < Data().realSlideCount ==>
        && dialog.value.closeVisible == old(dialog.value.closeVisible)
        && dialog.value.footerVisible == old(dialog.value.footerVisible)
        && dialog.value.progress == (if old(dialog.value.progress).Some? then Some(ProgressAt(Data())) else None)
    {
      var c := setup.carousel.value;
      var d := c.data.value;
      var dlg := dialog.value;
      var nextSlideNumber := d.currentSlide + 1;
      var currentIndex := d.currentIndex + 1;

      dlg := dlg.(title := setup.slides[currentIndex].title);
      setup := setup.(carousel := Some(c.(data := Some(d.(currentSlide := nextSlideNumber, currentIndex := currentIndex)))));

      if nextSlideNumber >= d.realSlideCount {
        dlg := dlg.(closeVisible := false, footerVisible := false);
      } else if dlg.progress.Some? {
        var progressValue := d.initialStep * nextSlideNumber;
        dlg := dlg.(progress := Some(Progress(progressValue, Label(nextSlideNumber, d.slideCount))));
      }

      var previous := setup.slides[currentIndex - 1].severity;
      var current := setup.slides[currentIndex].severity;
      dlg := dlg.(
        nextButtonClasses := dlg.nextButtonClasses - {ButtonClass(previous)} + {ButtonClass(current)},
        modalClasses := dlg.modalClasses - {ModalClass(previous)} + {ModalClass(current)});
      dialog := Some(dlg);
    }

    /**
     * The `slid.bs.carousel` handler: runs the current slide's callback on
     * its item and then, under forced selection, locks the next button.
     */
    method OnSlid()
      requires Valid() && dialog.Some?
      modifies this`invocations, this`dialog, this`dismissRequests
      ensures Valid() && dialog.Some?
      ensures invocations == old(invocations) + CallsFor(Current(), ItemAt(setup.carousel.value, Data().currentIndex), setup.settings)
      ensures setup.forceSelection ==> dialog.value.nextDisabled
      ensures !setup.forceSelection ==>
        dialog.value.nextDisabled == (old(dialog.value.nextDisabled) && !UnlocksNext(Current().callback))
      ensures dismissRequests == old(dismissRequests) + (if Current().callback == Some(DismissWizard) then 1 else 0)
      ensures dialog.value.(nextDisabled := false) == old(dialog.value).(nextDisabled := false)
    {
      var slide := Current();
      var target := ItemAt(setup.carousel.value, Data().currentIndex);
      RunSlideCallback(slide, target);
      if setup.forceSelection {
        LockNextStep();
      }
      assert setup == old(setup);
    }

    /**
     * A press of the next button. A disabled or hidden button cannot be
     * pressed, and the carousel does not slide with fewer than two items;
     * otherwise the carousel moves to the next item and both handlers run.
     */
    method Next()
      requires Valid() && dialog.Some?
      modifies this`setup, this`dialog, this`invocations, this`dismissRequests
      ensures Valid() && dialog.Some?
      ensures setup.slides == old(setup.slides) && setup.settings == old(setup.settings)
      ensures setup.forceSelection == old(setup.forceSelection)
      ensures !old(CanAdvance()) ==>
        && setup == old(setup) && dialog == old(dialog) && invocations == old(invocations)
        && dismissRequests == old(dismissRequests)
      ensures old(PastNoReturn()) ==> setup == old(setup) && dialog == old(dialog)
      ensures old(CanAdvance()) ==>
        && setup.carousel.value == old(setup.carousel.value).(data := Some(Data()))
        && Data() == old(Data()).(currentIndex := old(Data().currentIndex) + 1, currentSlide := old(Data().currentSlide) + 1)
        && Data().currentIndex < Data().realSlideCount
        && dialog.value.title == setup.slides[Data().currentIndex].title
        && dialog.value.nextButtonClasses == {ButtonClass(Current().severity)}
        && dialog.value.modalClasses == {ModalClass(Current().severity)}
        && (Data().currentSlide < Data().realSlideCount ==>
              dialog.value.progress == (if old(dialog.value.progress).Some? then Some(ProgressAt(Data())) else None))
        && invocations == old(invocations) + CallsFor(Current(), ItemAt(setup.carousel.value, Data().currentIndex), setup.settings)
        && dismissRequests == old(dismissRequests) + (if Current().callback == Some(DismissWizard) then 1 else 0)
        && (setup.forceSelection ==> dialog.value.nextDisabled)
        && (!setup.forceSelection ==> !dialog.value.nextDisabled)
        && (Data().currentIndex + 1 == Data().realSlideCount <==> PastNoReturn())
      ensures Data().currentIndex < Data().slideCount
    {
      var dlg := dialog.value;
      if !dlg.nextDisabled && dlg.footerVisible && Data().realSlideCount > 1 {
        assert Data().currentIndex + 1 < Data().realSlideCount;
        OnSlide();
        OnSlid();
      }
    }

    /** The `wizard-dismissed` handler: the modal has closed; the setup returns to its pristine value. */
    method OnDismissed()
      requires Valid()
      modifies this`setup, this`dialog
      ensures Valid()
      ensures setup == originalSetup
      ensures setup.slides == [] && setup.settings == map[] && setup.forceSelection && setup.carousel == None
      ensures dialog == None
    {
      setup := originalSetup;
      dialog := None;
    }
  }
}
