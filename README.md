# TYPO3 backend wizard and SEO meta tag generator, in Dafny

This project models two pieces of TYPO3 and proves what they promise.

**The backend wizard** (`Wizard` in `Build/Sources/TypeScript/backend/wizard.ts`)
is a multi-step dialog. Callers register slides and settings, then `show()`
builds a Bootstrap carousel with one item per slide and opens it in a modal.
A "next" button advances the carousel. When forced selection is on, `show()`
locks the button before the first slide's callback runs, so that callback can
unlock it. After every later transition the slide's callback runs first and
the lock comes after it, so under forced selection the button is locked once
the transition completes, whatever that callback did. A
progress bar tracks the steps. On the last slide the close control and the
footer disappear for good. When the modal is dismissed, the setup returns to
its pristine value.

- `wizard_model.dfy` (module `WizardModel`) holds the values:
  - slides, the built carousel (markup, items and the counters jQuery keeps in its `data`);
  - the dialog around the carousel (title, next button `disabled` flag, severity classes, close and footer visibility, progress bar);
  - the markup functions and their lemmas.
- `wizard.dfy` (module `BackendWizard`) is the class `Wizard`. Its fields are
  the mutable `setup`, the pristine `originalSetup`, the dialog, the log of
  slide-callback calls and the count of modal dismissals. Its methods are the
  public operations and the handlers of the carousel and dialog events.
- The class invariant `Valid()` says three things:
  - the carousel, once built, is the build of the slides registered when it was built (a prefix of the slide list: slides added later are not in it, as in the source);
  - its counters agree with its items;
  - an open dialog shows the current slide's title and severity, has a progress bar exactly when the carousel has more than one item, and loses its close control and footer together, only on the last item.

**The SEO meta tag generator** (`MetaTagGenerator` in
`typo3/sysext/seo/Classes/MetaTag/MetaTagGenerator.php`) adds meta tags for a
page record. It handles the description, Open Graph title, description and
images, Twitter title, description, images and card, and robots.

- `metatags.dfy` (module `SeoMetaTags`) models PHP values with their truthiness (`empty()`), the page record and file references.
- The meta tag registry and its managers are one append-only log of `addProperty` calls (`TagRegistry`).
- The foreign image pipeline is an `ImageBackend` value. It gives the crop area check, the image URI and the image dimensions.
- `Emissions(page, ogImages, twitterImages)` is the specification of everything `generate` adds.
- `MetaTagGenerator.Generate` is proved to append exactly that.
- Lemmas state each tag rule on the filtered log (`WithProperty`): when a tag is added, with which value and sub-properties, and in which order.

`wrappers.dfy` holds the `Option` type.

The progress value after a transition is the initial step times the
1-based `currentSlide` (`wizard.ts:190`).

## Model

| member | source | states |
|---|---|---|
| BackendWizard.Wizard.constructor | Build/Sources/TypeScript/backend/wizard.ts:49-57 | the setup starts pristine: no slides, no settings, forced selection, no carousel; the saved original equals it |
| BackendWizard.Wizard.Set | Build/Sources/TypeScript/backend/wizard.ts:59-62 | the key now maps to the value; every other key keeps its value; slides, forced selection and carousel are unchanged |
| BackendWizard.Wizard.AddSlide | Build/Sources/TypeScript/backend/wizard.ts:64-80 | exactly one slide with the given fields is appended at the end; settings, forced selection and carousel are unchanged; the invariant is kept |
| BackendWizard.Wizard.AddSlideWithDefaults | Build/Sources/TypeScript/backend/wizard.ts:64-70 | the defaults: empty content, info severity, no callback |
| BackendWizard.Wizard.AddFinalProcessingSlide | Build/Sources/TypeScript/backend/wizard.ts:82-98 | appends `final-processing-slide` with the spinner markup in a centred container and info severity; its callback is the given one, or a dismissal when none is given |
| BackendWizard.Wizard.GenerateSlides | Build/Sources/TypeScript/backend/wizard.ts:274-298 | idempotent: an existing carousel is returned and nothing changes; otherwise the loop builds exactly `Built(slides)` (markup and items of all slides in order) and stores it |
| BackendWizard.Wizard.GetComponent | Build/Sources/TypeScript/backend/wizard.ts:139-144 | returns the stored carousel, building it first only when there is none |
| BackendWizard.Wizard.LockNextStep | Build/Sources/TypeScript/backend/wizard.ts:150-154 | the next button is disabled; nothing else in the dialog changes |
| BackendWizard.Wizard.UnlockNextStep | Build/Sources/TypeScript/backend/wizard.ts:156-160 | the next button is enabled; nothing else in the dialog changes |
| BackendWizard.Wizard.SetForceSelection | Build/Sources/TypeScript/backend/wizard.ts:162-164 | only the forced-selection flag changes |
| BackendWizard.Wizard.Dismiss | Build/Sources/TypeScript/backend/wizard.ts:146-148 | one more request to close the modal |
| BackendWizard.Wizard.RunSlideCallback | Build/Sources/TypeScript/backend/wizard.ts:234-238 | the callback is called once with the slide element, the shared settings and the identifier, and not at all without a callback; its effect on the dialog and the dismissals follows |
| BackendWizard.Wizard.AddProgressBar | Build/Sources/TypeScript/backend/wizard.ts:240-271 | slide count is max(1, item count); the initial step is round(100 / slide count); counters start at index 0, slide 1; a progress bar showing step 1 exists exactly when the carousel has more than one item |
| BackendWizard.Wizard.OpenModal | Build/Sources/TypeScript/backend/wizard.ts:104-126 | the dialog opens on the first slide's title and severity classes, with an enabled next button, close control and footer, and the progress bar of the counters |
| BackendWizard.Wizard.Show | Build/Sources/TypeScript/backend/wizard.ts:100-131 | after show, the carousel is built and counted from the first slide; the dialog shows the first slide; the next button is disabled exactly when forced selection is on; the progress bar exists exactly when there is more than one item |
| BackendWizard.Wizard.OnShown | Build/Sources/TypeScript/backend/wizard.ts:132-133 | the first slide's callback runs on the first carousel item; the dialog changes only if that callback unlocks the next button, and a dismissing callback adds one dismissal request |
| BackendWizard.Wizard.OnSlide | Build/Sources/TypeScript/backend/wizard.ts:176-208 | both counters go up by exactly one; title and severity classes become those of the new current slide; on the last slide the close control and footer go, otherwise the progress becomes initial step times current slide with label (current slide, slide count) |
| BackendWizard.Wizard.OnSlid | Build/Sources/TypeScript/backend/wizard.ts:209-218 | the current slide's callback runs on its item; then, under forced selection, the next button is disabled; without forced selection it is disabled exactly when it was before and the callback does not unlock it (never locked automatically); a dismissing callback adds one dismissal request; nothing else in the dialog changes |
| BackendWizard.Wizard.Next | Build/Sources/TypeScript/backend/wizard.ts:172-174 | a press that cannot advance changes nothing (setup, dialog, callback log, dismissals); past the point of no return nothing changes; otherwise both counters go up by one, the carousel's markup, items and other counters are kept, the index stays inside the slides, title and severity classes are the new slide's, the progress is initial step times current slide before the last item, the new slide's callback is recorded, the button is locked under forced selection and stays enabled without it, and the point of no return is reached exactly on the last item; the index always stays below the slide count |
| BackendWizard.Wizard.OnDismissed | Build/Sources/TypeScript/backend/wizard.ts:134-136 | the setup is the pristine one again: no slides, empty settings, forced selection, no carousel; no dialog |
| WizardModel.SlideCountOf | Build/Sources/TypeScript/backend/wizard.ts:242 | the slide count is at least 1 and at least the item count, and it is one of the two |
| WizardModel.CssClass | Build/Sources/TypeScript/backend/wizard.ts:119 | Severity.getCssClass, assumed: notice, info, success, warning, danger for notice, info, ok, warning, error |
| WizardModel.RoundedPercent | Build/Sources/TypeScript/backend/wizard.ts:243 | Math.round(100 / n) for n >= 1, written as (200 + n) div 2n |
| WizardModel.RoundedPercentRange | Build/Sources/TypeScript/backend/wizard.ts:243 | the initial step is between 0 and 100; it is 100 exactly for one slide and 0 exactly for more than 200 slides |
| WizardModel.ProgressAt | Build/Sources/TypeScript/backend/wizard.ts:190-193 | the progress of the counters: value initial step times current slide, label (current slide, slide count) |
| WizardModel.RoundedPercentRounds | Build/Sources/TypeScript/backend/wizard.ts:243 | the initial step lies within half a unit of 100 / slide count (Math.round) |
| WizardModel.BuildItems | Build/Sources/TypeScript/backend/wizard.ts:283-295 | one carousel item per slide, in order, with the slide's identifier and content; only the first is active |
| WizardModel.ConcatAppend | Build/Sources/TypeScript/backend/wizard.ts:283-290 | concatenating two runs of item markup is concatenating their markups |
| WizardModel.ItemsMarkupExtend | Build/Sources/TypeScript/backend/wizard.ts:289 | one loop step appends exactly that slide's item markup |
| WizardModel.ItemsMarkupAt | Build/Sources/TypeScript/backend/wizard.ts:283-290 | slide k's item lies after the items of earlier slides and before those of later ones |
| WizardModel.CarouselMarkupShape | Build/Sources/TypeScript/backend/wizard.ts:280-292 | the markup is the carousel opening, the items before slide k, slide k's item, the items after, and the closing |
| WizardModel.BuiltMatches | Build/Sources/TypeScript/backend/wizard.ts:274-298 | a carousel freshly built from the slides satisfies the carousel invariant |
| WizardModel.WithNextDisabled | Build/Sources/TypeScript/backend/wizard.ts:150-160 | setting the `disabled` property changes that flag only; with no dialog there is nothing to set |
| WizardModel.NextDisabledIdempotent | Build/Sources/TypeScript/backend/wizard.ts:150-160 | locking or unlocking twice is doing it once; the last of a lock and an unlock wins |
| SeoMetaTags.Truthy | typo3/sysext/seo/Classes/MetaTag/MetaTagGenerator.php:52 | PHP's `!empty()`: null, false, 0, '' and '0' are empty, everything else is not |
| SeoMetaTags.EmptyValues | typo3/sysext/seo/Classes/MetaTag/MetaTagGenerator.php:52 | the empty values are exactly null, false, 0, '' and '0' |
| SeoMetaTags.CropCollection | typo3/sysext/seo/Classes/MetaTag/MetaTagGenerator.php:165 | `(string)($arguments['crop'] ?? '')`: '' when the reference has no crop, the crop string itself when it has one |
| SeoMetaTags.SocialImageOf | typo3/sysext/seo/Classes/MetaTag/MetaTagGenerator.php:149-156 | one social image: URI, width and height of the processed image, and the reference's alternative text |
| SeoMetaTags.TwitterCardRequired | typo3/sysext/seo/Classes/MetaTag/MetaTagGenerator.php:91-124 | the card-required flag at the end of the Twitter block: a Twitter title, a Twitter description, or at least one Twitter image |
| SeoMetaTags.RobotsValue | typo3/sysext/seo/Classes/MetaTag/MetaTagGenerator.php:132-137 | `noindex` or `index`, a comma, and `nofollow` or `follow`, after the two flags |
| SeoMetaTags.TagRegistry.AddProperty | typo3/sysext/seo/Classes/MetaTag/MetaTagGenerator.php:53-54 | one `addProperty` call is appended to the log |
| SeoMetaTags.CropVariantName | typo3/sysext/seo/Classes/MetaTag/MetaTagGenerator.php:166 | the crop variant is the reference's own when it is non-empty, and `social` otherwise; never empty |
| SeoMetaTags.ProcessSocialImage | typo3/sysext/seo/Classes/MetaTag/MetaTagGenerator.php:162-188 | the image comes from the reference's original file; it is the original exactly when the width is at most 2000 and the crop area is empty; otherwise it is processed with that crop and maxWidth 2000 |
| SeoMetaTags.RobotsValues | typo3/sysext/seo/Classes/MetaTag/MetaTagGenerator.php:132-137 | the three robots values when a flag is set, none of them `index,follow` |
| SeoMetaTags.EmissionsWithProperty | typo3/sysext/seo/Classes/MetaTag/MetaTagGenerator.php:47-139 | the tags of one property among all the tags are exactly that property's block of `generate` |
| SeoMetaTags.TextTagEmitted | typo3/sysext/seo/Classes/MetaTag/MetaTagGenerator.php:52-102 | description, og:title, og:description, twitter:title and twitter:description: one tag with the page's value exactly when the column is non-empty, none otherwise |
| SeoMetaTags.OgImageTagsEmitted | typo3/sysext/seo/Classes/MetaTag/MetaTagGenerator.php:67-89 | no og:image tag without `og_image`; with it, one tag per referenced file |
| SeoMetaTags.OgImageTagAt | typo3/sysext/seo/Classes/MetaTag/MetaTagGenerator.php:73-88 | the k-th og:image tag has the image URI as content and sub-properties url, width, height, plus alt exactly when the alternative text is non-empty |
| SeoMetaTags.TwitterImageTagsEmitted | typo3/sysext/seo/Classes/MetaTag/MetaTagGenerator.php:104-124 | no twitter:image tag without `twitter_image`; with it, one tag per referenced file |
| SeoMetaTags.TwitterImageTagAt | typo3/sysext/seo/Classes/MetaTag/MetaTagGenerator.php:110-123 | the k-th twitter:image tag has the image URI as content and at most an alt sub-property, present exactly when the alternative text is non-empty; never width or height |
| SeoMetaTags.OtherTwitterTags | typo3/sysext/seo/Classes/MetaTag/MetaTagGenerator.php:91-124 | some twitter title, description or image tag is added exactly when the card-required flag ends up set |
| SeoMetaTags.CardTagEmitted | typo3/sysext/seo/Classes/MetaTag/MetaTagGenerator.php:91-130 | twitter:card is the page's card type when non-empty; else `summary` exactly when another Twitter tag was added; else absent |
| SeoMetaTags.RobotsTagEmitted | typo3/sysext/seo/Classes/MetaTag/MetaTagGenerator.php:132-138 | robots is added exactly when no_index or no_follow is set, with the value of the two flags, and is never `index,follow` |
| SeoMetaTags.EmissionsOrdered | typo3/sysext/seo/Classes/MetaTag/MetaTagGenerator.php:52-138 | the tags come in the fixed order description, og:title, og:description, og:image, twitter:title, twitter:description, twitter:image, twitter:card, robots |
| SeoMetaTags.MetaTagGenerator.GenerateSocialImages | typo3/sysext/seo/Classes/MetaTag/MetaTagGenerator.php:144-160 | one social image per file reference, in order, from the processed image and the reference's alternative text |
| SeoMetaTags.MetaTagGenerator.AddOgImageTags | typo3/sysext/seo/Classes/MetaTag/MetaTagGenerator.php:73-88 | the loop appends one og:image tag per image, in order |
| SeoMetaTags.MetaTagGenerator.AddTwitterImageTags | typo3/sysext/seo/Classes/MetaTag/MetaTagGenerator.php:110-123 | the loop appends one twitter:image tag per image, in order; the card-required flag is set when there is an image |
| SeoMetaTags.MetaTagGenerator.AddTextTag | typo3/sysext/seo/Classes/MetaTag/MetaTagGenerator.php:52-55 | appends the text tag exactly when the column is non-empty, and reports whether it did |
| SeoMetaTags.MetaTagGenerator.AddOpenGraphTags | typo3/sysext/seo/Classes/MetaTag/MetaTagGenerator.php:57-89 | appends the Open Graph block |
| SeoMetaTags.MetaTagGenerator.AddTwitterTags | typo3/sysext/seo/Classes/MetaTag/MetaTagGenerator.php:91-124 | appends the Twitter block; the returned flag is the card-required condition |
| SeoMetaTags.MetaTagGenerator.AddTwitterCardTag | typo3/sysext/seo/Classes/MetaTag/MetaTagGenerator.php:126-130 | appends the card tag for the flag |
| SeoMetaTags.MetaTagGenerator.AddRobotsTag | typo3/sysext/seo/Classes/MetaTag/MetaTagGenerator.php:132-138 | appends the robots tag |
| SeoMetaTags.MetaTagGenerator.Generate | typo3/sysext/seo/Classes/MetaTag/MetaTagGenerator.php:47-139 | appends exactly `Emissions` of the page and its two relations' social images, whose rules the lemmas above state |

## Left out

- The cross-window singleton discovery (`wizard.ts:301-331`) is not modelled. It probes browser globals and swallows cross-origin errors.
- `Build/Sources/TypeScript/install/module/upgrade/tca-ext-tables-check.ts` is not modelled. It is an AJAX request and notification rendering, with no state or computation.
- Event wiring (`on`, `trigger`, `addEventListener`) is not modelled. Each handler is a method; the caller invokes the one the event would trigger.
- The cancel button's trigger is not modelled. It only fires the dismiss signal (`Dismiss`), and the modal's hidden event then triggers `OnDismissed`.
- jQuery and Bootstrap mechanics (animation, `slideUp`, selector traversal) are not modelled. Their effects are field updates on the `Dialog` record.
- The asynchronous icon load in `addFinalProcessingSlide` is not modelled. The loaded spinner markup and the translated title are parameters, and the append is modelled.
- Translated labels are not modelled. The progress label is the pair of numbers substituted into it.
- Severity.getCssClass: severity.ts is not part of this model. The mapping notice, info, success, warning, danger is assumed.
- Slide callbacks are caller closures. A callback is a `Callback` value recording whether it unlocks the next step synchronously; other effects of a callback are not modelled.
- BackendWizard.Wizard.OpenModal: `Modal.advanced` is assumed to run its callback (the progress bar) synchronously, before `show` applies the forced-selection lock.
- BackendWizard.Wizard.GenerateSlides: the loop gathers the items' markup and wraps it afterwards. The resulting string is the same as the source's running concatenation.
- BackendWizard.Wizard.LockNextStep and UnlockNextStep require a built carousel, as the source does when it traverses from the carousel.
- BackendWizard.Wizard.Show requires at least one slide. Without one, the source first stores an empty carousel (`generateSlides`, wizard.ts:101) and then fails reading the first slide's title (wizard.ts:105). Every later `show()` in that run reuses the empty carousel (wizard.ts:276-277). The model does not capture this failed call or its lasting effect.
- BackendWizard.Wizard.Show: a repeated `show()` in one run binds the carousel and visibility handlers again in the source (wizard.ts:122-125, 132-134, 176-218). From then on each transition advances both counters twice and runs each callback twice. The model runs each handler once per event.
- Parsing the carousel markup is assumed to yield exactly one `carousel-item` per slide; the carousel invariant (`CarouselMatches`) ties the item count to the slides. In the source `realSlideCount` is a DOM count (wizard.ts:241). Slide content containing an element of class `carousel-item` would raise it, and the slide handler would then read a title past the end of the slide list (wizard.ts:180). The model does not capture that case.
- An item's `active` flag is the class set at build time (wizard.ts:295). Bootstrap moving the `active` class to the item it slides to is not modelled. So the target recorded for a later slide's callback carries the build-time flag, not the live one.
- BackendWizard.Wizard.Next: Bootstrap's wrap-around from the last item to the first is not modelled. The footer with the next button is hidden by then.
- No contract claims that the progress value stays at or below 100. The code does not ensure it: round(100 / n) times k can exceed 100.
- The image pipeline is not modelled. FileCollector, `ImageService::getImageUri`, `CropVariantCollection` and `ProcessedFile::process` are foreign. The file collector's result is given as the list of file references, the rest as the functions of an `ImageBackend`.
- SeoMetaTags.SocialImageOf: the `floor((float)...)` conversion of width and height is not modelled. They are the integers the backend gives.
- SeoMetaTags.ProcessSocialImage: the reference's `width` property is an integer. PHP's loose comparison of a non-numeric width with 2000 is not modelled.
- The meta tag registry is one append-only log. The selection of a manager per property is not modelled.
- The page record holds only the columns `generate` reads. The request attribute lookup that yields it is not modelled.
- SeoMetaTags.MetaTagGenerator.Generate: the body of `generate` is split into one method per block (text tags, Open Graph, Twitter, card, robots), in the source's order.
