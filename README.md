# Portfolio site: a verified model of its client-side logic

This project models the interactive part of a bilingual (French/English) portfolio
built with Next.js and React, and proves properties of that model in Dafny. Each React
component's state becomes a class. Its `useState` hooks are fields, its handlers are
methods with `modifies` clauses, and its scheduled timeouts are explicit step methods.
Each piece of rendering logic becomes a function with a contract.

The modules follow the source files:

| module | source | what it covers |
|---|---|---|
| `Wrappers` | — | `Option` and `Result` |
| `Decimal` | — | natural numbers as decimal text, as JavaScript prints those below 10^21 (above that it switches to exponent form) |
| `ProjectData` | `app/data/projects.ts` | the project record and the eight compiled-in projects |
| `Translations` | `app/i18n/translations.ts` | the two locales and the dictionary entries the core reads |
| `ProjectsGrid` | `app/components/ProjectsGrid.tsx` | featured project, year-sorted mobile and web lists, card numbers, title splitting, featured-card details |
| `ProjectGallery` | `app/components/ProjectGallery.tsx` | carousel state and transition guard, wrap-around, broken images, the mobile mockup track |
| `Presentation` | `app/components/Presentation.tsx` | the stat counters: suffix, numeric prefix, initial text, frame text |
| `LanguageContext` | `app/i18n/LanguageContext.tsx` | the locale provider, its storage round trip, `useLanguage` |
| `Navigation` | `app/components/Navigation.tsx` | scrolled flag, mobile menu, body scroll lock |
| `Contact` | `app/contact/page.tsx` | contact form fields, two-phase submission, visible view |
| `Skills` | `app/components/Skills.tsx` | skill categories, heading choice, reveal delays |

The carousel's two nested timeouts are the one step method `Gallery.FireTimer`. It
fires whichever timeout is pending. The contact form's 1.5-second wait separates
`BeginSubmit` from `CompleteSubmit`. A React effect that re-runs when its dependency
changes is written as a method the state-changing method calls. An example is the
menu effect, whose cleanup runs before the next run.

## Model

| member | source | states |
|---|---|---|
| Decimal.DigitChar | app/components/Presentation.tsx:187-191 | the character written for a digit below ten is a digit, and reading it back gives the digit |
| Decimal.DigitValue | app/components/Presentation.tsx:170 | reading a digit character gives a value below ten whose character is that digit |
| Decimal.NatToString | app/components/Presentation.tsx:189 | a natural is written as at least one decimal digit, as exactly one digit when it is below ten, and with a leading zero only when it is zero |
| Decimal.NatToStringRoundTrip | app/components/Presentation.tsx:189 | reading back the decimal text of n gives n |
| Decimal.NatToStringInjective | app/components/ProjectGallery.tsx:101-112 | distinct numbers get distinct decimal texts, so index-based keys never collide |
| ProjectData.SlugsUnique | app/data/projects.ts:17-232 | no two of the site's projects share a slug |
| Translations.Locale.Code | app/i18n/translations.ts:608 | a locale's code is "en" or "fr" |
| Translations.LocaleOfCode | app/i18n/LanguageContext.tsx:27-28 | the locale read from "en" or "fr" has that code |
| ProjectsGrid.Featured | app/components/ProjectsGrid.tsx:158 | a featured project exists exactly when the list is non-empty, and it is the first one |
| ProjectsGrid.Others | app/components/ProjectsGrid.tsx:159 | the featured project followed by the others is the whole list; an empty list has no others |
| ProjectsGrid.OfTypeMembers | app/components/ProjectsGrid.tsx:161-164 | the filter keeps a project exactly when it is in the input and has the requested type |
| ProjectsGrid.InsertPermutes | app/components/ProjectsGrid.tsx:162-165 | inserting a project adds exactly that project to the multiset |
| ProjectsGrid.InsertSorted | app/components/ProjectsGrid.tsx:162-165 | inserting into a list sorted by descending year keeps it sorted |
| ProjectsGrid.WithYearCons | app/components/ProjectsGrid.tsx:162-165 | the projects of one year in a list with a new head are that head, if it has the year, then those of the rest |
| ProjectsGrid.InsertKeepsYearOrder | app/components/ProjectsGrid.tsx:162-165 | the inserted project lands ahead of the projects of its year already in the list, and their order is kept |
| ProjectsGrid.SortByYearDescCorrect | app/components/ProjectsGrid.tsx:162-165 | the sort gives a permutation of its input, by non-increasing year, with projects of the same year in their original order (a stable sort) |
| ProjectsGrid.OfTypeSplits | app/components/ProjectsGrid.tsx:160-165 | the mobile and web filters together keep every project exactly once |
| ProjectsGrid.PartitionCorrect | app/components/ProjectsGrid.tsx:158-165 | the mobile list is all mobile and the web list all web; both are sorted by year; together they are a permutation of the non-featured projects |
| ProjectsGrid.FeaturedNotListed | app/components/ProjectsGrid.tsx:158-165 | a featured project that does not recur later in the list appears in neither list |
| ProjectsGrid.SiteFeatured | app/components/ProjectsGrid.tsx:158-165 | on the site's data, "evera" is featured and appears in neither list |
| ProjectsGrid.SiteKinds | app/data/projects.ts:17-232 | the site's projects after the first have the types web, mobile, web, web, web, mobile, web, and both mobile ones are from 2024 |
| ProjectsGrid.SiteMobileList | app/components/ProjectsGrid.tsx:160-162 | on the site's data, the mobile list is RunMate then TripMate: both are from 2024, so the stable sort keeps source order |
| ProjectsGrid.SortTwo | app/components/ProjectsGrid.tsx:162 | two projects already in non-increasing year order, equal years included, are left in that order by the sort |
| ProjectsGrid.MobileOfSeven | app/components/ProjectsGrid.tsx:161 | for seven projects of the site's type pattern, the mobile filter keeps the second and sixth |
| ProjectsGrid.OfTypeStep | app/components/ProjectsGrid.tsx:161-164 | filtering a suffix takes its head if it has the type, then filters the rest |
| ProjectsGrid.CardNumbers | app/components/ProjectsGrid.tsx:482-551 | the `index` prop each card receives runs from 1 to m+w with no gap: mobile cards first, then web cards from m+1 |
| ProjectsGrid.CardNumbersDistinct | app/components/ProjectsGrid.tsx:482-551 | no two cards receive the same `index` prop |
| ProjectsGrid.SplitChars | app/components/ProjectsGrid.tsx:130-144 | one span per character, keyed by position; a space becomes a non-breaking space with the fixed width, any other character is shown as it is |
| ProjectsGrid.Shown | app/components/ProjectsGrid.tsx:139 | the shown text has one character per span, each being that span's content |
| ProjectsGrid.SplitCharsIdempotent | app/components/ProjectsGrid.tsx:130-144 | the shown text has no ordinary space; splitting it again shows the same text with the same number of spans |
| ProjectsGrid.ProjectTypeLabel | app/components/ProjectsGrid.tsx:17-41 | "professional", "freelance" and "personal" get their label in the locale; any other value, and only those, is returned unchanged |
| ProjectsGrid.FeaturedTechnologies | app/components/ProjectsGrid.tsx:101 | the card lists the first min(4, n) technologies in order |
| ProjectsGrid.ShortDescription | app/components/ProjectsGrid.tsx:96 | the translated short description when present and non-empty, else the record's own |
| ProjectsGrid.SiteDescriptionsTranslated | app/components/ProjectsGrid.tsx:96 | every project of the site has a translated description in both locales, and that is the one shown |
| ProjectGallery.NextIndex | app/components/ProjectGallery.tsx:36-39 | the next index stays in range, going from the last image back to the first |
| ProjectGallery.PrevIndex | app/components/ProjectGallery.tsx:41-44 | the previous index stays in range, going from the first image to the last |
| ProjectGallery.PrevUndoesNext | app/components/ProjectGallery.tsx:36-44 | previous after next, and next after previous, return to the same image |
| ProjectGallery.Gallery.constructor | app/components/ProjectGallery.tsx:13-16 | the first render: no errors, image 0 active and displayed, no transition |
| ProjectGallery.Gallery.HandleImageError | app/components/ProjectGallery.tsx:18-20 | the index joins the error set, nothing leaves it, and adding an index already present changes nothing |
| ProjectGallery.Gallery.HandleImageChange | app/components/ProjectGallery.tsx:22-34 | a request for the active index, or during a transition, changes nothing; otherwise the index becomes active, the transition starts, and the show timer is scheduled |
| ProjectGallery.Gallery.FireTimer | app/components/ProjectGallery.tsx:28-33 | the 300 ms timer displays the new image and schedules the 50 ms timer, which ends the transition; with no timer pending nothing happens; the invariant tying active, displayed and pending index is kept |
| ProjectGallery.Gallery.GoToNext | app/components/ProjectGallery.tsx:36-39 | when idle, the next index (with wrap-around) becomes active; during a transition nothing changes |
| ProjectGallery.Gallery.GoToPrev | app/components/ProjectGallery.tsx:41-44 | when idle, the previous index (with wrap-around) becomes active; during a transition nothing changes |
| ProjectGallery.Gallery.ChangeAndSettle | app/components/ProjectGallery.tsx:22-34 | an accepted change followed by both timeouts ends with the new image active and displayed, and the gallery idle |
| ProjectGallery.Counter | app/components/ProjectGallery.tsx:182-188 | the "k / n" counter is shown exactly when there is more than one image, with 1 <= k <= n and k the active index plus one |
| ProjectGallery.ControlsMatchCounter | app/components/ProjectGallery.tsx:158-195 | the arrows and the thumbnail strip appear exactly when the counter does, and when they appear next and previous each move to another image |
| ProjectGallery.MainImage | app/components/ProjectGallery.tsx:142-153 | the main picture is a placeholder exactly when the displayed image has failed, and otherwise shows that image |
| ProjectGallery.Mockups | app/components/ProjectGallery.tsx:62-112 | one mockup per image, in order, keyed by prefix and index, showing the placeholder exactly for failed images |
| ProjectGallery.KeyPrefixInjective | app/components/ProjectGallery.tsx:101-112 | two keys with the same prefix are equal only for the same index |
| ProjectGallery.MobileTrackCorrect | app/components/ProjectGallery.tsx:86-114 | with four or more images the track holds every image twice, the second copy repeating the first; otherwise once; no two mockups share a React key |
| Presentation.Suffix | app/components/Presentation.tsx:171 | the suffix has no digit and no point and is no longer than the target |
| Presentation.SuffixAppend | app/components/Presentation.tsx:171 | removing digits and points works piecewise over a concatenation |
| Presentation.SuffixOfPlain | app/components/Presentation.tsx:171 | a text with no digit and no point is its own suffix |
| Presentation.SuffixOfNumeric | app/components/Presentation.tsx:171 | a run of digits and points has the empty suffix |
| Presentation.SuffixIdempotent | app/components/Presentation.tsx:171 | applying the replacement twice gives what applying it once gives |
| Presentation.LeadingDigits | app/components/Presentation.tsx:170 | the leading run of digits is an all-digit prefix, followed by a non-digit or the end |
| Presentation.LeadingDigitsOf | app/components/Presentation.tsx:170 | digits followed by a non-digit have exactly those digits as their leading run |
| Presentation.ParseNumber | app/components/Presentation.tsx:170-173 | a target reads as NaN exactly when it starts with neither a digit nor a point followed by a digit; otherwise both parts are all digits |
| Presentation.ParseWhole | app/components/Presentation.tsx:170 | digits followed by neither a digit nor a point read as that whole number |
| Presentation.ParseDecimal | app/components/Presentation.tsx:170 | digits, a point and digits, followed by no digit, read as that decimal |
| Presentation.CounterFor | app/components/Presentation.tsx:158-185 | a counter runs exactly for a non-empty target with a numeric prefix; its suffix is the target without digits and points |
| Presentation.InitialText | app/components/Presentation.tsx:169-176 | a target with a counter starts as "0" plus its suffix; any other target keeps its rendered text |
| Presentation.SuffixAfterNumber | app/components/Presentation.tsx:171-191 | a written number followed by a plain suffix has that suffix |
| Presentation.FrameReadsBack | app/components/Presentation.tsx:185-191 | every frame reads back as its own value followed by the suffix: a whole number for an integral target, one decimal otherwise |
| Presentation.FormatValueReadsBack | app/components/Presentation.tsx:187-191 | a frame value is written as a whole number with no point, or with exactly one digit after the point, and reads back as the value in the counter's unit |
| Presentation.WholeTargetStartsAtZero | app/components/Presentation.tsx:169-176 | a whole-number target with a plain suffix starts as "0" plus that suffix |
| Presentation.OneDecimalTargetStartsAtZero | app/components/Presentation.tsx:169-176 | a target with one decimal and a plain suffix starts as "0" plus that suffix |
| Presentation.WholeTargetRoundTrip | app/components/Presentation.tsx:169-191 | a whole-number target with a plain suffix ends the count-up showing exactly itself |
| Presentation.OneDecimalTargetRoundTrip | app/components/Presentation.tsx:169-191 | a target with one non-zero decimal and a plain suffix ends the count-up showing exactly itself |
| Presentation.SiteStats | app/components/Presentation.tsx:293-296 | "2.5", "10+" and "100%" start at "0", "0+" and "0%" and end showing themselves |
| Presentation.ExperienceStat | app/components/Presentation.tsx:294 | "2.5" starts at "0" and ends at "2.5" |
| Presentation.ProjectsStat | app/components/Presentation.tsx:295 | "10+" starts at "0+" and ends at "10+" |
| Presentation.SatisfactionStat | app/components/Presentation.tsx:296 | "100%" starts at "0%" and ends at "100%" |
| Presentation.SetUpStats | app/components/Presentation.tsx:152-176 | after the loop over the stat elements, each element holds its initial text |
| Presentation.StatValue.constructor | app/components/Presentation.tsx:299-305 | the element first shows its target |
| Presentation.StatValue.Start | app/components/Presentation.tsx:176 | set-up writes the initial text |
| Presentation.StatValue.Update | app/components/Presentation.tsx:186-192 | each frame writes the formatted value plus suffix; the last frame writes the final text |
| LanguageContext.Storage.constructor | app/i18n/LanguageContext.tsx:26 | storage starts with the given items |
| LanguageContext.Storage.GetItem | app/i18n/LanguageContext.tsx:26 | a value exactly for present keys, and it is the stored one |
| LanguageContext.Storage.SetItem | app/i18n/LanguageContext.tsx:34 | the key maps to the value, and every other key is unchanged |
| LanguageContext.LoadedLocale | app/i18n/LanguageContext.tsx:23-30 | a stored "en" selects English, and anything else leaves the initial French |
| LanguageContext.StoredLocaleReadsBack | app/i18n/LanguageContext.tsx:26-34 | whichever locale was written, loading it back selects that locale |
| LanguageContext.LanguageProvider.constructor | app/i18n/LanguageContext.tsx:23 | the provider starts in French |
| LanguageContext.LanguageProvider.LoadFromStorage | app/i18n/LanguageContext.tsx:25-30 | a stored "en" or "fr" is adopted; anything else leaves the locale as it was |
| LanguageContext.LanguageProvider.SetLocale | app/i18n/LanguageContext.tsx:32-35 | the locale is held and written under "locale", and other storage keys are kept |
| LanguageContext.LanguageProvider.Value | app/i18n/LanguageContext.tsx:38-43 | the context exposes the locale and that locale's dictionary |
| LanguageContext.Mount | app/i18n/LanguageContext.tsx:22-30 | a mounted provider holds the locale loaded from storage |
| LanguageContext.SwitchThenReload | app/i18n/LanguageContext.tsx:25-35 | after setLocale(x), a new provider on the same storage starts with x; setting x twice leaves the storage that setting it once does |
| LanguageContext.UseLanguage | app/i18n/LanguageContext.tsx:50-56 | fails, with the source's message, exactly outside a provider; otherwise gives the context value |
| Navigation.IsScrolled | app/components/Navigation.tsx:16 | the integer comparison agrees with `scrollY > innerHeight * 0.8` on real numbers |
| Navigation.IsScrolledMonotone | app/components/Navigation.tsx:16 | once past 80% of the viewport height, any further scroll keeps the flag set |
| Navigation.Body.constructor | app/components/Navigation.tsx:27-32 | the body starts with the given overflow |
| Navigation.OverflowFor | app/components/Navigation.tsx:26-30 | the body is "hidden" exactly when the menu is open, and "" when it is closed |
| Navigation.LogoColor | app/components/Navigation.tsx:48-50 | white while the menu is open; otherwise black exactly when scrolled |
| Navigation.MenuButtonFor | app/components/Navigation.tsx:102-103 | aria-expanded follows the menu, and the label reads "Fermer le menu" exactly when it is open |
| Navigation.Navigation.constructor | app/components/Navigation.tsx:9-10 | the first render is not scrolled and has the menu closed |
| Navigation.Navigation.Mount | app/components/Navigation.tsx:13-34 | after mount, the flag reflects the current scroll position and the body lock matches the menu |
| Navigation.Navigation.HandleScroll | app/components/Navigation.tsx:14-17 | the flag is set exactly past 80% of the viewport height |
| Navigation.Navigation.MenuEffect | app/components/Navigation.tsx:25-34 | after the cleanup and re-run, the body lock matches the menu |
| Navigation.Navigation.ToggleMenu | app/components/Navigation.tsx:101 | the menu flips, and the body is locked exactly when it is now open |
| Navigation.Navigation.CloseMenu | app/components/Navigation.tsx:36-51 | the menu ends closed and the body unlocked; on a closed menu the body is left as it was |
| Navigation.Navigation.Teardown | app/components/Navigation.tsx:22-33 | unmounting releases the lock even with the menu open |
| Navigation.Navigation.ToggleTwice | app/components/Navigation.tsx:25-101 | two toggles restore both the menu and the body lock |
| Contact.FormData.With | app/contact/page.tsx:19-24 | the named field gets the value, and the other three keep theirs |
| Contact.ContactPage.constructor | app/contact/page.tsx:10-17 | four empty fields, not submitting, not submitted |
| Contact.ContactPage.HandleChange | app/contact/page.tsx:19-24 | only the input's own field changes |
| Contact.ContactPage.BeginSubmit | app/contact/page.tsx:26-28 | submission starts, and the fields are untouched |
| Contact.ContactPage.CompleteSubmit | app/contact/page.tsx:31-35 | after the wait: no longer submitting, submitted, and the fields emptied |
| Contact.ContactPage.SendAnother | app/contact/page.tsx:216-217 | back to the form |
| Contact.ContactPage.SubmitThenSendAnother | app/contact/page.tsx:26-217 | a completed submission followed by the "send another" button shows the empty form again |
| Contact.ViewFor | app/contact/page.tsx:195-328 | the success panel exactly when submitted, in English only for "en"; otherwise the form, with the button disabled and reading the "sending" text while submitting |
| Contact.SendingIsVisible | app/contact/page.tsx:312-328 | in both languages the button's caption and disabled state tell an in-flight submission from an idle form |
| Skills.GetLabel | app/components/Skills.tsx:36-40 | a non-empty own label wins; else the non-empty translated category name; else the key |
| Skills.LabelNonEmpty | app/components/Skills.tsx:36-40 | a category with a non-empty key never gets an empty heading |
| Skills.Headings | app/components/Skills.tsx:87-99 | one heading per category, in order, each chosen by the label rule |
| Skills.CategoryDelayMs | app/components/Skills.tsx:93 | only the first category starts without delay |
| Skills.SkillDelayMs | app/components/Skills.tsx:114 | no skill badge starts before 100 ms |
| Skills.DelaysIncrease | app/components/Skills.tsx:93-114 | later categories and later badges start strictly later |
| Skills.Keys | app/components/Skills.tsx:89 | the category keys, in order |
| Skills.SiteCategories | app/components/Skills.tsx:6-118 | five categories with distinct keys and distinct skills within each; only "ai" has its own label and the highlight |
| Skills.SiteHeadingsEnglish | app/components/Skills.tsx:36-99 | the English headings, with "AI & LLM" taken from the category itself |
| Skills.SiteHeadingsFrench | app/components/Skills.tsx:36-99 | the French headings: the same except "Design & Outils" for the tools category |

## Left out

- `ProjectsGrid.CardNumbers`: ProjectCard (app/components/ProjectCard.tsx:9-14) takes the `index` prop but never renders it, so the numbering is never visible on the page.
- GSAP timelines and scroll triggers are not modelled. They cover the projects section's zoom and horizontal scroll and the counters' easing and duration. They are animation with no logic the pages depend on.
- `CustomCursor`, `Footer`, `Hero`, `ProjectCard`, `ProjectDetail`, `LanguageSwitcher`, the layout, the home page and the `projects/[slug]` route are not part of this model.
- Real time is not modelled: timeouts and the contact form's 1.5-second wait are explicit steps.
- Browser events are not modelled: an image's failure to load and the form's built-in field validation are method calls or are left out.
- `ProjectData.Project`: the records' `context`, `missions` and `learnings` are not transcribed. No operation of the core reads them.
- `ProjectData.Project`: `year` is a four-digit string in the data. The model stores the number `parseInt` reads from it, which is what the sort compares.
- `ProjectsGrid.ProjectTypeLabel`: the featured card calls it with `project.projectType`, a field the record does not have. The card therefore renders no type label. The model gives the label function itself and not that call.
- `ProjectsGrid.SplitChars`: JavaScript's `split("")` works on UTF-16 code units, and the model on Dafny characters. Titles outside the Basic Multilingual Plane would split differently.
- `ProjectGallery.NextIndex` and `ProjectGallery.PrevIndex` require a non-empty image list. With no images, JavaScript's `% 0` gives NaN, but the arrows are not rendered then.
- `ProjectGallery.Gallery.GoToNext` and `ProjectGallery.Gallery.GoToPrev` require more than one image (`ShowsControls`), because the arrows exist only then.
- `ProjectGallery.MainImage` requires the displayed index to lie inside the image list. With no images the source renders an `<Image>` whose `src` is undefined, but its only caller (app/components/ProjectDetail.tsx:214) always passes two or three images.
- `Presentation.ParseNumber` models `parseFloat` only on digits, an optional point and more digits. It leaves out leading whitespace, signs, exponents and "Infinity". The site's targets use none of them.
- `Presentation.CounterFor` snaps non-integral targets to tenths, rounding half up at the second decimal. It leaves out binary floating point, so decimal fractions are exact in the model.
- `Presentation.FormatValue` assumes frame values lie on the snap grid, as the tween's `snap` option makes them.
- `Navigation.IsScrolled` takes the scroll offset and viewport height as integers in pixels.
- `Skills.CategoryDelayMs` and `Skills.SkillDelayMs` give delays in milliseconds. The source builds `"{seconds}s"` strings with floating-point products; their formatting is left out.
- `LanguageContext.Storage`: `localStorage` is a map. Quota errors and storage disabled by the browser are left out.
- Translations: only the dictionary entries the core reads are transcribed: skill category names, the form's send/sending captions and project short descriptions.
