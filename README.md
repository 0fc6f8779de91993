# onycx portfolio — verified model of its interactive rules

This project is a Dafny model of the behaviour in a React portfolio site (onycx). Most of the site is markup. The deterministic rules inside its components are modelled and proved here:

- **Scroll-stack carousel** (`ScrollStack.dfy`). The inner container's scroll offset becomes a progress value in 0..1. The progress becomes the active card by counting equal bands, and the active card decides each card's visual state (visibility, offset, scale, opacity, stacking order, pointer events). A wheel handler locks the page while the cards are scrolled and releases it at either end. An intersection callback resets the stack when the section leaves below the viewport.
- **Asset preload registry** (`Preload.dfy`). Components register asset ids and mark them loaded. The provider leaves its loading state once the counts say everything is loaded and a 2000 ms minimum has passed, after a 500 ms settling timer. That timer is cancelled whenever a dependency changes. The ratio of the counts is exposed as progress. That progress is not monotone: an asset registered after others have loaded lowers it.
- **Navigation bar** (`Navbar.dfy`). The highlighted tab is the last section whose top is at or above 200px from the viewport top, sections scrolled past included. Updates are throttled to one per animation frame. A click switches the tab at once, and the bar fades in once after 3000 ms.
- **Project cards** (`Projects.dfy`). Each project maps to a card: badge, title and subtitle, a live preview or a dark gradient background, and the Live Demo and GitHub links.
- **Hero** (`Hero.dfy`). The role caption rotates every 3000 ms. The name is split into words. Social links open a new tab when they point to the web.
- **Stat counters** (`About.dfy`). Each counter counts up over 1500 ms on an ease-out cubic curve and shows the floor of the eased value.
- **Skills** (`Skills.dfy`). Tabs select a skill category by key, and the marquee repeats its item list twice.

`Wrappers.dfy` holds the `Option` and `Result` types.

Parts that change state over time are classes with `modifies` contracts. Their invariants live in a `Valid()` predicate. The browser supplies several inputs. The scroll container's offset is the `scrollTop` field of `ScrollStack.ScrollStackState`, moved by the wheel handler, by the intersection reset and by the `NativeScroll` event. `NativeScroll` covers the browser's own scrolling: a wheel event the handler does not prevent (`Wheel` returns `prevented == false` and leaves `scrollTop` alone, and the browser's default action then scrolls the container), scrollbar, touch and keyboard. The other inputs are parameters of the event methods:

- `scrollHeight - clientHeight` (the constant `maxScroll`), bounding rectangles, `innerHeight`;
- animation-frame timestamps and `performance.now()`;
- the observers' reports.

Timers, intervals and animation frames are explicit event methods (`FireMinTimer`, `FireFinishTimer`, `FireShowTimer`, `Tick`, `RunFrame`, ...). The finish timer and the animation frames can be absent or cancelled, so their methods do nothing when none is pending. The minimum-time timer and the show timer are one-shot timeouts that fire once after mount, and a repeat call of their methods changes nothing. The role interval fires repeatedly. None of the three has a pending state. React state updates, re-renders and effect re-runs are applied synchronously: each event method leaves the state as it is after React has committed the event's updates and re-run the effects that depend on them. The browser's clamping of `scrollTop` to `[0, maxScroll]` is an assumption about the DOM. It is stated as the function `ScrollStack.ClampScroll`, not derived. Progress, scale and easing are Dafny `real`s. JavaScript truthiness of optional strings is modelled: an empty string counts as absent.

## Model

| member | source | states |
|---|---|---|
| `ScrollStack.ClampScroll` | src/components/ScrollStack.tsx:91 | the assumed browser clamp: the result lies in `[0, maxScroll]` and equals the written value when that is already in range |
| `ScrollStack.Progress` | src/components/ScrollStack.tsx:172-175 | progress times `maxScroll` is `scrollTop` when `maxScroll > 0`; it is 0 otherwise; it lies in 0..1 whenever `scrollTop` is in range |
| `ScrollStack.BandsReached` | src/components/ScrollStack.tsx:177-183 | the number of `1/n` bands reached never exceeds the cap |
| `ScrollStack.ActiveIndex` | src/components/ScrollStack.tsx:177-185 | -1 with no cards; otherwise a card index in `[0, n)`; 0 below the first threshold (so at progress 0); the last card once progress reaches 1 |
| `ScrollStack.InView` | src/components/ScrollStack.tsx:78-79 | the wheel handler's "in view" test: the section's top is at most 100px down and its bottom at least half the viewport height down |
| `ScrollStack.ThresholdReached` | src/components/ScrollStack.tsx:178-182 | the loop's test `progress >= (1/n)*k` holds exactly when `floor(progress*n) >= k` |
| `ScrollStack.ActiveIndexIsBand` | src/components/ScrollStack.tsx:177-185 | card `k` is active exactly in its band: progress has reached `k/n` (or k is first) and not `(k+1)/n` (or k is last) |
| `ScrollStack.ActiveIndexMonotone` | src/components/ScrollStack.tsx:177-185 | more progress never gives an earlier active card |
| `ScrollStack.ComputeActiveIndex` | src/components/ScrollStack.tsx:177-185 | the frame's `for` loop over the bands, capped with `Math.min`, computes `ActiveIndex` |
| `ScrollStack.CardTransform` | src/components/ScrollStack.tsx:201-220 | visible iff intersecting and `activeCardIndex >= index`; hidden cards are transparent, 100px down and inert; visible cards take pointer events, sit 20..80px down, and have opacity 0.85 (card 0) or 1 |
| `ScrollStack.StackOffsetBelowSixty` | src/components/ScrollStack.tsx:210 | every card's stacking offset `index * (60 / cardCount)` lies in `[0, 60)` |
| `ScrollStack.VisibleCardsFormPrefix` | src/components/ScrollStack.tsx:202 | if a card is visible, every earlier card is too: the visible cards are `0..activeCardIndex` |
| `ScrollStack.LaterCardsStackOnTop` | src/components/ScrollStack.tsx:204-217 | later cards have a strictly higher z-index and scale; among visible cards they sit strictly higher; a visible card sits higher than a later hidden one; a later visible card implies an earlier visible one |
| `ScrollStack.ScrollStackState.constructor` | src/components/ScrollStack.tsx:44-48 | mount state: card 0, not intersecting, unlocked, not completed, scrolled to the top, and the mount `handleScroll()` has set `ticking` and requested a frame |
| `ScrollStack.ScrollStackState.OnContainerScroll` | src/components/ScrollStack.tsx:164-189 | a scroll event with `ticking` clear sets it and requests a frame; with `ticking` set it requests nothing, so a frozen throttle (set, no frame pending) stays frozen; nothing else changes |
| `ScrollStack.ScrollStackState.RunFrame` | src/components/ScrollStack.tsx:166-187 | a pending frame is consumed; with the refs present it sets the active card to `ActiveIndex(Progress(scrollTop, maxScroll))` and clears `ticking`; with the refs missing it returns early, leaving `ticking` set with no frame pending, after which no later frame changes the active card; without a pending frame nothing changes |
| `ScrollStack.ScrollStackState.NativeScroll` | src/components/ScrollStack.tsx:172 | a native scroll of the container moves `scrollTop` to the requested offset clamped to `[0, maxScroll]` and changes nothing else |
| `ScrollStack.ScrollStackState.Wheel` | src/components/ScrollStack.tsx:74-128 | all five wheel cases. Down, in view, not completed: lock, scroll, and complete and unlock within 5px of the bottom. Up within 5px of the top: unlock without moving. Up further down: lock and scroll back. Up after completion within 10px of the bottom: re-lock and clear completion. Anything else, or no listener while not intersecting: no change |
| `ScrollStack.ScrollStackState.OnIntersection` | src/components/ScrollStack.tsx:134-148 | records the intersection flag; leaving with `rect.top > 0` resets completion, lock and `scrollTop`; otherwise leaving with `rect.bottom < 0` only unlocks; otherwise the lock state is kept |
| `ScrollStack.ScrollStackState.Card` | src/components/ScrollStack.tsx:201-202 | a card of the current state is visible iff the section intersects and the active card has reached it |
| `Preload.ReadyToFinish` | src/context/PreloadContext.tsx:61-65 | the completion condition needs the minimum time; with assets registered it also needs at least as many loaded as registered; with none, only the timer |
| `Preload.LoadProgress` | src/context/PreloadContext.tsx:79-82 | 1 when not loading; 0 with nothing registered; otherwise `progress * total == loaded` |
| `Preload.LoadProgressAtMostOne` | src/context/PreloadContext.tsx:79-82 | progress is at most 1 when the loaded count does not exceed the registered count |
| `Preload.MoreLoadedNoLower` | src/context/PreloadContext.tsx:79-82 | against the same registry size, more loaded ids never lower the progress |
| `Preload.LateRegistrationLowersProgress` | src/context/PreloadContext.tsx:30-36 | progress is not monotone over time: one registered and loaded asset gives 1, and registering a second drops it to 1/2 |
| `Preload.ProgressWithinUnitWhenLoadedRegistered` | src/context/PreloadContext.tsx:9 | the documented 0..1 range holds whenever every loaded id is registered |
| `Preload.CountsNotMembership` | src/context/PreloadContext.tsx:49-61 | completion compares counts: an unregistered loaded id makes a registry with an unloaded id "all loaded", and can push progress to 2 |
| `Preload.UsePreload` | src/context/PreloadContext.tsx:100-106 | the context value inside a provider, the documented error outside one |
| `Preload.PreloadProvider.constructor` | src/context/PreloadContext.tsx:17-20 | mount: empty registry and loaded set, loading, minimum time not elapsed, no finish timer |
| `Preload.PreloadProvider.CompletionEffect` | src/context/PreloadContext.tsx:46-71 | runs only when registry size, loaded size or the timer flag changed: the pending finish timer is cancelled and rescheduled exactly when `ReadyToFinish` holds; the sets and flags are untouched |
| `Preload.PreloadProvider.RegisterAsset` | src/context/PreloadContext.tsx:30-36 | only adds the id to the registry; registering a present id changes nothing, not even the pending timer; a new id re-runs the completion effect, so the finish timer is pending exactly when `ReadyToFinish` holds |
| `Preload.PreloadProvider.MarkLoaded` | src/context/PreloadContext.tsx:38-44 | only adds the id to the loaded set (which therefore never shrinks); marking a present id changes nothing; a new id re-runs the completion effect, so the finish timer is pending exactly when `ReadyToFinish` holds |
| `Preload.PreloadProvider.FireMinTimer` | src/context/PreloadContext.tsx:23-28 | sets the minimum-time flag and re-evaluates completion |
| `Preload.PreloadProvider.FireFinishTimer` | src/context/PreloadContext.tsx:67 | loading ends only through a pending finish timer, which exists only while the completion condition holds; once not loading it stays so |
| `Preload.PreloadProvider.Value` | src/context/PreloadContext.tsx:73-93 | the context value carries the set sizes and flag, progress 1 once loaded, and progress in 0..1 while loaded ids are registered |
| `Navbar.SectionId` | src/components/Navbar.tsx:38 | the url without its first character: that character followed by the id gives back the url |
| `Navbar.SectionIds` | src/components/Navbar.tsx:38 | one id per nav entry, in the same order |
| `Navbar.NavSectionIds` | src/components/Navbar.tsx:7-14 | the six ids are home, about, projects, skills, achievements and contact, and each url is `#` followed by its id |
| `Navbar.Qualifies` | src/components/Navbar.tsx:41 | a section qualifies when its element exists and its top is at or above 200px from the viewport top, sections scrolled past included |
| `Navbar.LastQualifying` | src/components/Navbar.tsx:39-45 | the highest-indexed section that exists with its top at or above 200px, sections scrolled past included; none when no section qualifies |
| `Navbar.ScanSections` | src/components/Navbar.tsx:39-45 | the reverse loop with `break` finds exactly `LastQualifying` |
| `Navbar.TabAfterScan` | src/components/Navbar.tsx:39-45 | the scan's tab is the qualifying entry's name, or the previous tab when none qualifies |
| `Navbar.AllSectionsUpSelectsLast` | src/components/Navbar.tsx:39-43 | with every section past the line, Contact is highlighted |
| `Navbar.NavbarState.constructor` | src/components/Navbar.tsx:21-22 | mount: Home highlighted, hidden, and the first `handleScroll()` has scheduled a frame |
| `Navbar.NavbarState.OnScroll` | src/components/Navbar.tsx:34-36 | a scroll event leaves a frame pending and changes nothing else |
| `Navbar.NavbarState.RunFrame` | src/components/Navbar.tsx:37-47 | a pending frame applies `TabAfterScan` and clears `ticking`; without one nothing changes |
| `Navbar.NavbarState.TabClick` | src/components/Navbar.tsx:55-61 | a click highlights that tab at once and changes nothing else |
| `Navbar.NavbarState.FireShowTimer` | src/components/Navbar.tsx:25-28 | the timer shows the bar; no method hides it |
| `Projects.Truthy` | src/components/ProjectsSection.tsx:225 | JavaScript truthiness of an optional string, as the badge, background and link conditions use it: present and non-empty |
| `Projects.Badge` | src/components/ProjectsSection.tsx:225 | "Live" iff a live url is set; "Open Source" iff only a repository url is set; none iff neither |
| `Projects.JsRem` | src/components/ProjectsSection.tsx:132 | JavaScript `%`: magnitude below the divisor, the Euclidean remainder for non-negative dividends, never positive for non-positive ones |
| `Projects.JsRemOdd` | src/components/ProjectsSection.tsx:132 | negating the dividend negates JavaScript's remainder |
| `Projects.GradientSlotAsWritten` | src/components/ProjectsSection.tsx:232 | the slot as written (`(index-3) % 4` in JavaScript) is in `(-4, 4)`, and non-negative from index 3 on |
| `Projects.GradientAt` | src/components/ProjectsSection.tsx:114-132 | `gradients[slot]` is defined exactly for slots 0..3 |
| `Projects.GradientSlot` | src/components/ProjectsSection.tsx:232 | the corrected slot always names a gradient and agrees with the as-written slot from index 3 on |
| `Projects.ToCard` | src/components/ProjectsSection.tsx:222-239 | title and subtitle copied; the badge rule; an iframe preview exactly when a preview url is set, otherwise the dark background at the as-written slot, which names a gradient exactly from index 3 on; Live Demo and GitHub links exactly when their urls are set |
| `Projects.ToCardFixed` | src/components/ProjectsSection.tsx:232 | the corrected card: every dark background names a gradient, and the card equals the as-written one except for the gradient slot of a preview-less card before index 3 |
| `Projects.ScrollStackCards` | src/components/ProjectsSection.tsx:222-224 | one card per project, in order, each with the project's title and tagline |
| `Projects.ScrollStackCardsFixed` | src/components/ProjectsSection.tsx:222-233 | the corrected cards, one per project in order, every dark one with a defined gradient |
| `Projects.LiveBadgeWins` | src/components/ProjectsSection.tsx:225 | a project with both urls is badged "Live" and shows both links |
| `Projects.PortfolioCards` | src/components/ProjectsSection.tsx:19-78 | the seven cards: three "Live", one unbadged, three "Open Source"; only the second and third show a preview |
| `Projects.FirstProjectGradientUndefined` | src/components/ProjectsSection.tsx:27 | as written, the first project's card has the dark background at slot -3, which names no gradient; projects 3..6 get slots 0..3 |
| `Projects.GradientSlotAlwaysDefined` | src/components/ProjectsSection.tsx:132 | the corrected slot is always defined and keeps every slot the as-written code got right |
| `Projects.FirstProjectGradientFixed` | src/components/ProjectsSection.tsx:232 | with the corrected slot, the first project's card gets gradient 1 |
| `Hero.NextRole` | src/components/HeroSection.tsx:26 | one tick moves to the next caption, wrapping from the last to the first, and stays in range |
| `Hero.RoleAfter` | src/components/HeroSection.tsx:20-27 | the caption after any number of ticks is a valid index |
| `Hero.RoleAfterBeforeWrap` | src/components/HeroSection.tsx:7-12 | before wrapping, tick `k` shows caption `k`: the captions appear in listed order |
| `Hero.RolesCycle` | src/components/HeroSection.tsx:25-27 | after `roles.length` ticks the first caption is back, and the rotation repeats with that period |
| `Hero.RoleRotation.constructor` | src/components/HeroSection.tsx:20 | the rotation starts at caption 0 |
| `Hero.RoleRotation.Tick` | src/components/HeroSection.tsx:25-27 | a tick advances to `NextRole` and keeps the index equal to `RoleAfter(ticks)` |
| `Hero.RoleRotation.CurrentRole` | src/components/HeroSection.tsx:7-12 | the shown caption is one of the roles |
| `Hero.Split` | src/components/HeroSection.tsx:32 | `split` yields at least one piece, none containing the separator |
| `Hero.SplitJoin` | src/components/HeroSection.tsx:32 | joining the pieces with the separator gives back the string |
| `Hero.SplitNoSeparator` | src/components/HeroSection.tsx:32 | a string without the separator splits into itself |
| `Hero.SplitAfterPiece` | src/components/HeroSection.tsx:32 | a separator-free piece, a separator, and a tail split into that piece followed by the tail's pieces |
| `Hero.JoinSplit` | src/components/HeroSection.tsx:32 | splitting a join of separator-free pieces gives back the pieces |
| `Hero.NameWords` | src/components/HeroSection.tsx:32 | the name splits into "Prashant", "Kumar", "Yadav", in that order |
| `Hero.StartsWith` | src/components/HeroSection.tsx:217 | `href.startsWith(prefix)`: the prefix is no longer than the string and equals its first characters |
| `Hero.SocialLinkAttrs` | src/components/HeroSection.tsx:217-218 | `target="_blank"` and `rel="noopener noreferrer"` exactly when the href starts with "http" |
| `Hero.SocialLinks` | src/components/HeroSection.tsx:209-218 | LinkedIn and GitHub open a new tab; the mail link opens in place |
| `About.CounterProgress` | src/components/AboutSection.tsx:23-28 | `elapsed / 1500`, capped at 1: exactly 1 from 1500 ms on, and non-negative for non-negative elapsed time |
| `About.ProgressMonotone` | src/components/AboutSection.tsx:27-28 | progress never falls as elapsed time grows |
| `About.Eased` | src/components/AboutSection.tsx:30 | the ease-out cubic never exceeds 1 up to progress 1, stays in 0..1 on 0..1, is 0 at 0, and is 1 exactly at 1 |
| `About.EasedMonotone` | src/components/AboutSection.tsx:30 | the easing curve is non-decreasing up to progress 1, negative progress included |
| `About.DisplayedCount` | src/components/AboutSection.tsx:31 | the floored count never exceeds the target, lies in `[0, target]` for progress in 0..1, is 0 at the start and the target at the end |
| `About.NegativeElapsedShowsMinusOne` | src/components/AboutSection.tsx:26-31 | a first frame 15 ms before the recorded start gives progress -0.01 and shows -1 |
| `About.CountMonotone` | src/components/AboutSection.tsx:27-31 | the displayed count never decreases as elapsed time grows, negative elapsed time included |
| `About.CountReachesTarget` | src/components/AboutSection.tsx:28-31 | a positive target is shown exactly when progress reaches 1 |
| `About.AnimatedCounter.constructor` | src/components/AboutSection.tsx:17-18 | mount: 0 shown, not in view, no frame requested |
| `About.AnimatedCounter.ObserveInView` | src/components/AboutSection.tsx:18-35 | the first in-view report records the start time and requests a frame, with no frame run yet and the start as the reference timestamp; later reports (trigger once) and out-of-view reports change nothing |
| `About.AnimatedCounter.RunFrame` | src/components/AboutSection.tsx:26-34 | a requested frame, at any timestamp, shows the eased count for its elapsed time and requests another exactly while elapsed < 1500 ms; the count never exceeds the target, is non-negative from the start time on, and never decreases after the first frame (nor on a first frame at or after the start time); the frame's timestamp becomes the last frame time, so successive frames chain |
| `About.CountUpRun` | src/components/AboutSection.tsx:20-34 | a counter brought into view at 100 and given frames at 90, 116, 700 and 1700 shows non-decreasing numbers from the second frame on, ends on its target and requests no further frame |
| `Skills.FirstKeyIndex` | src/components/SkillsSection.tsx:80 | the search behind `find`: the first position whose key matches, every earlier key differing, or the length when none matches |
| `Skills.Find` | src/components/SkillsSection.tsx:80 | `find`: the first category with the key, or none exactly when no category has it |
| `Skills.FindSelected` | src/components/SkillsSection.tsx:80 | with distinct keys, looking up a category's key returns that category |
| `Skills.SkillKeysDistinct` | src/components/SkillsSection.tsx:18-69 | the four keys are distinct, and the first is the initial tab |
| `Skills.ProficienciesInRange` | src/components/SkillsSection.tsx:18-69 | every listed proficiency is a percentage in 0..100, as the field's comment says |
| `Skills.BarFraction` | src/components/SkillsSection.tsx:177 | the bar's filled share is the proficiency as a percentage, within 0..1 for in-range proficiencies |
| `Skills.ActiveSkills` | src/components/SkillsSection.tsx:156 | the listed skills are those of the found category, none when no category matches |
| `Skills.TabHighlights` | src/components/SkillsSection.tsx:124-129 | a tab is highlighted iff its key is the active tab |
| `Skills.OneTabHighlighted` | src/components/SkillsSection.tsx:124-129 | with distinct keys, exactly the selected tab is highlighted |
| `Skills.Doubled` | src/components/SkillsSection.tsx:101 | the marquee row is twice as long, both halves being the item list |
| `Skills.Shifted` | tailwind.config.ts:73-76 | rotating the row by `k` entries puts entry `k + i` at position `i` |
| `Skills.MarqueeSeamless` | tailwind.config.ts:73-76 | at the level of entries: rotating the doubled row by half its entries gives back the row, and each second-half entry repeats the one half a row earlier |
| `Skills.MarqueeLength` | src/components/SkillsSection.tsx:72-76 | 18 names, 36 marquee entries |
| `Skills.SkillTabs.constructor` | src/components/SkillsSection.tsx:79 | the Frontend tab is selected on mount |
| `Skills.SkillTabs.ClickTab` | src/components/SkillsSection.tsx:123 | clicking a tab selects its key, which stays one of the categories' keys |
| `Skills.SkillTabs.ActiveCat` | src/components/SkillsSection.tsx:80 | the active category is always found and carries the selected key |

## Left out

- Browser and DOM input and output are not modelled. This covers bounding rectangles, `scrollHeight`/`clientHeight`, listener registration and removal, `IntersectionObserver`, `requestAnimationFrame`, `setTimeout`/`setInterval`, `scrollIntoView` and `preventDefault`. Readings are parameters, timers and frames are event methods, and `preventDefault` is the `prevented` result of `Wheel`.
- The `document.body.style.overflow` effect (src/components/ScrollStack.tsx:60-70) is not modelled. It only mirrors `isScrollLocked` into the page style.
- `ScrollStack.ScrollStackState`: `maxScroll` is fixed for the object's lifetime. Resizes that change the container's height are not modelled.
- `ScrollStack.ScrollStackState.Wheel` and `ScrollStack.ScrollStackState.OnIntersection`: neither raises the container `scroll` event that the browser fires after their writes to `scrollTop` (the wheel handler's `+= deltaY`, the intersection reset's `= 0`). That event is the separate `OnContainerScroll` call.
- Effect cleanups on unmount are not modelled.
- `ScrollStack.ScrollStackState.Wheel`: stale listeners are not modelled. The wheel listener is re-registered in an effect that runs after React commits (src/components/ScrollStack.tsx:73-128). A wheel event arriving before that re-run uses the previous closure and its old `hasCompletedScroll`. For example, an upward wheel right after the completing downward one takes the not-completed branch and locks without clearing completion. The source can therefore reach "completed and locked", a state the model's invariant excludes, because the model applies updates and effect re-runs synchronously.
- `ScrollStack.CardTransform`: the CSS strings and the transition timing are not modelled. Pixel values and scale are reals.
- Card content markup is not modelled: the SitePreview iframe, the background image fallback of ScrollStack, the tech pills, the description.
- Floating point is not modelled. Progress, scale, easing and offsets are exact reals, so IEEE-754 rounding (for instance in `elapsed / 1500` or `1 / cardCount`) is not captured.
- `About.AnimatedCounter.RunFrame`: frame timestamps after the first are assumed never to go back, as successive animation frames' timestamps do not. The first frame may precede the start time, and then the counter shows a negative number for one frame (`About.NegativeElapsedShowsMinusOne`).
- `Skills.MarqueeSeamless`: the pixel geometry of the marquee is not modelled. `translateX(-50%)` moves by half the flex container's own box. That box is as wide as its parent, not as its 36 items. Even at the items' width, the 35 `gap-6` gaps put the second copy half a gap past the -50% point. The lemma states only the entry-level fact.
- `Hero.RoleRotation.Tick`: the index is tied to the tick count through the recursive `RoleAfter`, not through a closed form `ticks % roles.length`. Equivalent facts are stated instead: `RoleAfterBeforeWrap` and the period of `RolesCycle`.
- Library animation is not modelled: framer-motion variants and springs, Lenis smooth scrolling, the preloader screen, reveal-on-scroll wrappers and the contact section's magnetic button.
- The remaining sections (contact, achievements, footer, background, layout) are static or composition-only and are not part of this model.

## Findings

| source | as written | input that shows it | evidently intended | confidence | as-written member | corrected member |
|---|---|---|---|---|---|---|
| src/components/ProjectsSection.tsx:232 | `DarkAbstractBg` is given `index - 3` and reads `gradients[index % 4]`; JavaScript's `%` keeps a negative dividend negative | project 0 (Scotia Delights, whose preview url is commented out) asks for `gradients[-3]`, which is `undefined`, so its card gets no gradient | every dark card gets one of the four gradients, the `index - 3` offset only rotating which one | not executed | `Projects.FirstProjectGradientUndefined` | `Projects.GradientSlotAlwaysDefined` |

The as-written slot is `Projects.GradientSlotAsWritten`, which `Projects.ToCard` and `Projects.ScrollStackCards` use as the source does. The corrected slot `Projects.GradientSlot` reduces with the Euclidean remainder. `Projects.ToCardFixed` and `Projects.ScrollStackCardsFixed` use it, and `Projects.FirstProjectGradientFixed` shows the first card getting a gradient.
