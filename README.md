# DS Education site logic, modelled in Dafny

This project models the behaviour behind the DS Education marketing site, a
React single-page application for an overseas-education consultancy. Most
of the site is static content. The logic that decides what a visitor sees
lives in a few places, and each has one module here:

- `I18n` (`i18n.dfy`) is the language registry: English (`en`) and Khmer
  (`kh`), both left to right. It models how the starting language is
  detected from local storage, the cookie, the browser's languages and the
  document's `lang` attribute, in that order, with English as the fallback.
  The browser's state is a `Browser` class, and `ChangeLanguage` writes it
  in place: the active language, the document's `lang` and `dir`, the
  local-storage key and a seven-day strict cookie (RFC 6265, Max-Age in
  section 5.2.2, Path in section 5.2.4). The module proves that a reload
  after a change starts on the chosen language again.
- `LanguageSwitcher` (`language_switcher.dfy`) is the header's language
  dropdown. It is an open/closed state machine driven by the trigger's
  click and keys, the options' click and keys, and presses outside the
  widget. It also models whether focus returns to the trigger.
- `Header` (`header.dfy`) covers:
  - exact-match and `/partners`-prefix route highlighting;
  - the desktop and mobile navigation order (the first two links, then
    Partners, then the rest);
  - the three open flags and the handlers that flip or clear them.
- `PartnerCountry` (`partner_country.dfy`) is the `/partners/<slug>` page:
  - a lookup in a table of nine countries;
  - a not-found view;
  - one tile per partner university.

  It also proves that the table's keys are exactly the slugs of the
  header's partner links.
- `Seo` (`seo.dfy`) derives the page's head tags as a pure function of the
  page props, the localized defaults, the active language and the current
  path. The tags are the title, the meta tags, the canonical link, the
  hreflang alternates, Open Graph, Twitter, schema.org and JSON-LD. Tags
  are read back by a `Reader`, and the lemmas state what every reader
  finds.
- `Scroll` (`scroll.dfy`) covers four hooks:
  - the in-view options of the scroll animation hook;
  - the scroll-progress handler, as a class whose field the handler sets;
  - the scroll-direction handler, as a class, plus a replay of any run of
    scroll events;
  - the target of the smooth scroll to an element.
- `Button` (`button.dfy`) covers the design-system button: its element, its
  disabled and busy state, and the children it shows while loading and
  while idle. It also covers the icon-only wrapper and the button group.
- `JsSemantics` (`js_semantics.dfy`) holds the few JavaScript value rules
  the modules share:
  - `undefined` as `None`;
  - `??` as `Coalesce` and `||` on strings as `OrElse`;
  - string truthiness;
  - `slice`, `startsWith` and `charAt`.

## Model

| member | source | states |
|---|---|---|
| I18n.Config | src/lib/i18n.ts:10-25 | each table entry carries its own key as `code`, and both languages declare `ltr` |
| I18n.Lookup | src/lib/i18n.ts:91 | `languages[s]` finds each of the two own keys under its own name; a regional tag such as `en-US` finds nothing (inherited object members: see Left out) |
| I18n.LookupCodeString | src/lib/i18n.ts:10-25 | every defined code is found again under its own name |
| I18n.GetCurrentLanguage | src/lib/i18n.ts:89-92 | exactly the config of the active code (`Config(c)`) when it is `en` or `kh`, the English config for any other value; the direction is always `ltr` |
| I18n.CookieMaxAge | src/lib/i18n.ts:85 | the cookie lifetime `changeLanguage` writes (60·60·24·7 s) equals the detector's `cookieMinutes` (10080) times 60 |
| I18n.CookieAttributesText | src/lib/i18n.ts:85 | the cookie's attributes are written with that lifetime in decimal: `; path=/; max-age=604800; SameSite=Strict` |
| I18n.CookieStringText | src/lib/i18n.ts:85 | the whole string `changeLanguage` assigns is `ds-education-language=<lang>` followed by those attributes |
| I18n.StoreCookie | src/lib/i18n.ts:85 | assigning a cookie string sets the one cookie it names to its value and leaves every other cookie as it was; a string without a valid pair changes nothing |
| I18n.ParseCookiePair | src/lib/i18n.ts:85 | the name-value pair a cookie jar keeps for a cookie string has a non-empty name without `=` or `;`, and a value without `;` |
| I18n.ParseCookiePairOf | src/lib/i18n.ts:85 | a `name=value; attributes` string stores exactly `value` under `name` |
| I18n.CookieRoundTrip | src/lib/i18n.ts:52 | the cookie `changeLanguage` writes is read back under the detector's cookie key as exactly the chosen code |
| I18n.FirstNonEmpty | src/lib/i18n.ts:48 | the first non-empty candidate in detection order, or none iff every candidate is empty |
| I18n.Detect | src/lib/i18n.ts:42-52 | the starting language is never empty: when some source reported a non-empty language it is the first such candidate in the order localStorage, cookie, navigator, `lang` attribute; when every candidate is empty it is `en` |
| I18n.DetectHtmlTag | src/lib/i18n.ts:48 | with nothing stored and no browser language, the document's non-empty `lang` attribute is the starting language |
| I18n.DetectPrefersLocalStorage | src/lib/i18n.ts:48-51 | a stored preference wins over the cookie, the browser's languages and the `lang` attribute |
| I18n.DetectFallsBackToCookie | src/lib/i18n.ts:48-52 | without a local-storage entry, the preference cookie wins over the browser and the document |
| I18n.DetectNavigator | src/lib/i18n.ts:48 | with nothing stored, the browser's first preferred language wins, even a regional tag such as `en-US` |
| I18n.DetectDefaultsToEnglish | src/lib/i18n.ts:42-48 | with no source reporting a language, the engine starts on `en` |
| I18n.Browser.Init | src/lib/i18n.ts:30-60 | start-up detects the language in order and caches it in local storage and the cookie jar (`caches`); the document's `lang` and `dir` are left as they were |
| I18n.Browser.ChangeLanguage | src/lib/i18n.ts:73-86 | sets the active language, the document `lang` and `dir` (`ltr`), stores the code under `ds-education-language`, writes exactly `ds-education-language=<lang>; path=/; max-age=604800; SameSite=Strict`, and leaves every other storage key and cookie as it was; re-detection then yields the code |
| I18n.ReloadRestoresLanguage | src/lib/i18n.ts:73-86 | after the writes of `changeLanguage(c)`, a fresh detection starts on `c` and `getCurrentLanguage` returns `c`'s config, whatever the other sources say |
| LanguageSwitcher.CurrentLanguage | src/components/LanguageSwitcher.tsx:13 | an empty engine language becomes `en`, and every other value is kept |
| LanguageSwitcher.CurrentLangConfig | src/components/LanguageSwitcher.tsx:14 | the Khmer config iff the current language is `kh`, the English config for every other value |
| LanguageSwitcher.BadgeAsWritten | src/components/LanguageSwitcher.tsx:105 | the badge reads `EN` iff the current language is exactly `en`, and `KH` otherwise |
| LanguageSwitcher.BadgeAsWrittenMislabelsRegionalEnglish | src/components/LanguageSwitcher.tsx:105 | with nothing stored and a browser preferring `en-US`, detection yields `en-US`, and the rendered switcher shows the English flag beside a `KH` badge where the corrected badge reads `EN` |
| LanguageSwitcher.Badge | src/components/LanguageSwitcher.tsx:105 | the badge names the config that is displayed (`EN` iff English, `KH` iff Khmer) and agrees with the source on `en` and `kh` |
| LanguageSwitcher.Options | src/components/LanguageSwitcher.tsx:139-158 | one option per defined language in table order, each selected iff it equals the current code, with id `lang-<code>`, its own config's flag, native name and name, and `tabIndex` 0 while open and -1 while closed |
| LanguageSwitcher.SelectedOptions | src/components/LanguageSwitcher.tsx:140 | exactly the current code's option is selected, and none when the current language is not a defined code |
| LanguageSwitcher.Render | src/components/LanguageSwitcher.tsx:91-118 | `aria-expanded` is the open flag, the listbox (the options) is shown iff open, and the trigger shows the current config's flag and the badge as written: `EN` iff the current language is exactly `en`, `KH` otherwise |
| LanguageSwitcher.RenderCorrected | src/components/LanguageSwitcher.tsx:91-118 | the same view with the corrected badge, which names the config shown beside it |
| LanguageSwitcher.RenderAgreesOnDefinedCodes | src/components/LanguageSwitcher.tsx:105 | for `en`, `kh` and an unset language the rendered view already equals the corrected one |
| LanguageSwitcher.Switcher.constructor | src/components/LanguageSwitcher.tsx:9 | the dropdown starts closed |
| LanguageSwitcher.Switcher.TriggerClick | src/components/LanguageSwitcher.tsx:81 | a click on the trigger toggles the dropdown |
| LanguageSwitcher.Switcher.TriggerKeyDown | src/components/LanguageSwitcher.tsx:32-58 | Escape closes from either state and refocuses the trigger; the arrows open and prevent the default; Enter and Space open a closed dropdown (preventing the default only then); no handled key other than Escape closes it; any other key changes nothing |
| LanguageSwitcher.Switcher.TriggerKeyPress | src/components/LanguageSwitcher.tsx:32-81 | a key on the trigger followed by the native button's click for an unprevented Enter or Space: Enter and Space toggle the dropdown (opening a closed one, closing an open one), Escape closes it and refocuses the trigger, the arrows open it, other keys change nothing |
| LanguageSwitcher.Switcher.SelectLanguage | src/components/LanguageSwitcher.tsx:60-64 | switches the language through `changeLanguage`, closes the dropdown and refocuses the trigger |
| LanguageSwitcher.Switcher.OptionKeyDown | src/components/LanguageSwitcher.tsx:66-74 | Enter and Space on an option select it with all of `changeLanguage`'s effects (language, document `lang` and `dir`, storage, cookie), close the dropdown, refocus the trigger and prevent the default; any other key changes neither the dropdown nor the browser |
| LanguageSwitcher.Switcher.DocumentMouseDown | src/components/LanguageSwitcher.tsx:18-24 | a press outside the widget closes it; a press inside leaves it as it was |
| Header.IsActive | src/components/layout/Header.tsx:31 | a plain link is highlighted iff the pathname is exactly its path; its consequences are stated by `NavHighlight` |
| Header.IsPartnersActive | src/components/layout/Header.tsx:32 | Partners is highlighted iff the pathname starts with `/partners`; see `PartnerPathActivatesPartners` and `NavHighlight` |
| Header.NavItems | src/components/layout/Header.tsx:51 | both bars are `links.slice(0, 2)`, Partners, `links.slice(2)`; what that order guarantees is stated by `NavOrder` |
| Header.PartnerSlug | src/components/layout/Header.tsx:6-16 | the slug of a `/partners/<slug>` path, with the prefix and the slug putting the path back together |
| Header.PartnerPathActivatesPartners | src/components/layout/Header.tsx:32 | every `/partners/<slug>` path highlights the Partners entry |
| Header.PartnerCountriesActivatePartners | src/components/layout/Header.tsx:6-16 | every partner-country link is a `/partners/<slug>` path, so it highlights Partners |
| Header.PartnerSlugs | src/components/layout/Header.tsx:6-16 | one slug per link, in menu order, each link's path being the prefix plus its slug |
| Header.HeaderSlugs | src/components/layout/Header.tsx:6-16 | the header's nine slugs, in menu order |
| Header.AsItems | src/components/layout/Header.tsx:51 | one plain nav entry per link, in order |
| Header.NavOrder | src/components/layout/Header.tsx:51 | for any link list, a bar built as `links.slice(0, 2)`, Partners, `links.slice(2)` contains every link exactly once in list order and Partners once, after at most two links |
| Header.HeaderNavOrder | src/components/layout/Header.tsx:18-23 | the header's bars read Home, Services, Partners, DS Foundation, Testimonials |
| Header.NavHighlight | src/components/layout/Header.tsx:31-32 | at most one plain link is highlighted, and none while Partners is highlighted |
| Header.HeaderState.constructor | src/components/layout/Header.tsx:26-28 | all three flags start false |
| Header.HeaderState.ToggleMenu | src/components/layout/Header.tsx:125 | the menu button flips only the menu flag |
| Header.HeaderState.MobileLinkClick | src/components/layout/Header.tsx:147 | any mobile-menu link closes the menu and leaves the other flags as they were |
| Header.HeaderState.ToggleMobilePartners | src/components/layout/Header.tsx:159 | the mobile Partners button flips only the accordion flag |
| Header.HeaderState.PartnersMouseEnter | src/components/layout/Header.tsx:68 | entering the desktop Partners entry opens its dropdown, nothing else |
| Header.HeaderState.PartnersMouseLeave | src/components/layout/Header.tsx:69 | leaving it closes the dropdown, nothing else |
| Header.HeaderState.MobilePartnerLinks | src/components/layout/Header.tsx:164-166 | the mobile partner links are listed iff both the menu and the accordion are open |
| PartnerCountry.TileOf | src/pages/PartnerCountry.tsx:297-301 | a tile shows the first character of the name, or nothing for an empty name, and then the name |
| PartnerCountry.Tiles | src/pages/PartnerCountry.tsx:290-304 | one tile per university, in list order |
| PartnerCountry.Render | src/pages/PartnerCountry.tsx:219-232 | the not-found view iff the slug is missing, empty or not a key; otherwise the record's flag, name, texts, heading `Our University Partners in <name>` and tiles |
| PartnerCountry.TableKeys | src/pages/PartnerCountry.tsx:14-217 | the table's keys are the nine country slugs |
| PartnerCountry.HeaderLinkNames | src/pages/PartnerCountry.tsx:14-217 | each header slug is a key whose record's name is the link's label |
| PartnerCountry.HeaderSlugsAreKeys | src/pages/PartnerCountry.tsx:14-217 | the table's keys are exactly the header's slugs |
| PartnerCountry.HeaderLinksResolve | src/pages/PartnerCountry.tsx:221-223 | following any header partner link renders that country's page under the link's label |
| Seo.LocalizedDefaults | src/components/SEO.tsx:36-44 | each default is the translation's entry when there is one, and the built-in English text (never empty) otherwise |
| Seo.FullTitle | src/components/SEO.tsx:47 | the title with the site suffix when it is non-empty, the default title otherwise; stated by `TitleSuffixed` |
| Seo.FullUrl | src/components/SEO.tsx:50 | the site URL followed by a non-empty `url`, the bare site URL otherwise; stated by `UrlsAgree` |
| Seo.CanonicalUrl | src/components/SEO.tsx:51 | a non-empty `canonical`, the page URL otherwise; stated by `UrlsAgree` |
| Seo.HeadTags | src/components/SEO.tsx:60-121 | the tags in the order the component declares them; what each reader finds in them is stated by `HeadMeta` and `HeadNonMeta` |
| Seo.KeyOfMeta | src/components/SEO.tsx:64-113 | each meta key is written under an attribute (`name`, `property` or `itemProp`) and a text from which the key is recovered |
| Seo.MetaKeysDistinct | src/components/SEO.tsx:64-113 | no two meta keys share an attribute and a text, so reading the head by key is reading it by the document's own tags |
| Seo.AlternateTags | src/components/SEO.tsx:84-86 | one `alternate` link per entry, in order, with its hreflang and href |
| Seo.HeadMeta | src/components/SEO.tsx:63-113 | every meta key occurs with exactly the content the component computes for it, or not at all (the article times without their props) |
| Seo.HeadNonMeta | src/components/SEO.tsx:63-120 | title, `html lang`, links and the JSON-LD script are each found only in their own tag |
| Seo.TitleSuffixed | src/components/SEO.tsx:47 | a non-empty title is the prefix of the full title, followed by ` \| DS Education`; otherwise the full title is the localized default |
| Seo.TitlesAgree | src/components/SEO.tsx:63-111 | `<title>` and each of the meta title, `og:title`, `twitter:title` and schema name occur once, all with exactly the full title |
| Seo.DescriptionsAgree | src/components/SEO.tsx:48-49 | each of the four descriptions occurs once and carries the description or, when it is missing or empty, the default |
| Seo.KeywordsFallBack | src/components/SEO.tsx:49 | the keywords meta occurs once with the keywords or, when they are missing or empty, the default |
| Seo.ImagesAgree | src/components/SEO.tsx:94-113 | `og:image`, `twitter:image` and schema image each occur once with the image, the default only when the prop is missing |
| Seo.UrlsAgree | src/components/SEO.tsx:50-51 | `og:url` and `twitter:url` carry the site URL plus a non-empty `url`; the canonical link is a non-empty `canonical` or that URL; the URL always starts with the site URL |
| Seo.AlternateLanguages | src/components/SEO.tsx:84-87 | exactly three alternate links, with the hreflangs `en`, `km`, `x-default` in that order |
| Seo.Alternates | src/components/SEO.tsx:55-87 | the `en` and `x-default` hrefs are the current page on the site, the `km` href that URL plus `?lang=kh` |
| Seo.RobotsFollowNoindex | src/components/SEO.tsx:70-74 | robots is `noindex, nofollow` iff `noindex` is set, the index/follow string otherwise |
| Seo.LanguageFollowsActive | src/components/SEO.tsx:77-98 | `html lang` is the active language; the language meta is `Khmer` and `og:locale` `km_KH` iff it is `kh`, and `English` and `en_US` otherwise |
| Seo.ArticleTimesWhenGiven | src/components/SEO.tsx:99-100 | the article times appear, once each, iff their props are non-empty |
| Seo.StructuredDataWhenGiven | src/components/SEO.tsx:116-120 | the JSON-LD script appears, once, iff structured data is given |
| Scroll.InViewSettings | src/hooks/use-scroll-animation.ts:18-22 | each supplied option is kept as given; only a missing option or a missing argument takes its default |
| Scroll.AnimationDefaults | src/hooks/use-scroll-animation.ts:18-22 | no options give once `true`, amount 0.2 and margin `0px 0px -100px 0px`, as does an empty options object |
| Scroll.FalsyOptionsKept | src/hooks/use-scroll-animation.ts:18-22 | `once: false`, `threshold: 0` and `margin: ""` are kept |
| Scroll.Clamp | src/hooks/use-scroll-animation.ts:61 | the result lies in [0, 1] and equals the input when the input does |
| Scroll.ProgressOf | src/hooks/use-scroll-animation.ts:58-61 | the progress lies in [0, 1]; it is 0 for a document that does not scroll or at the top, the scrolled fraction of the scrollable height in between, and 1 at or past the bottom |
| Scroll.ProgressMonotone | src/hooks/use-scroll-animation.ts:58-61 | scrolling further down never lowers the progress |
| Scroll.ScrollProgress.Mount | src/hooks/use-scroll-animation.ts:54-65 | after mounting, the initial call has set the progress for the current position |
| Scroll.ScrollProgress.HandleScroll | src/hooks/use-scroll-animation.ts:57-62 | each scroll event sets the progress for the new position, within [0, 1] |
| Scroll.Step | src/hooks/use-scroll-animation.ts:83-89 | down when the position grew, up when it shrank, the old direction when equal; the last position becomes the current one |
| Scroll.ReplayFollowsLastMove | src/hooks/use-scroll-animation.ts:80-94 | after any run of events the last position is the final one and the direction is that of the last event that moved the window |
| Scroll.NoDirectionUntilMoved | src/hooks/use-scroll-animation.ts:76-77 | from the initial state, events at position 0 leave the direction unset |
| Scroll.ScrollDirection.constructor | src/hooks/use-scroll-animation.ts:76-77 | no direction, last position 0 |
| Scroll.ScrollDirection.HandleScroll | src/hooks/use-scroll-animation.ts:80-90 | one scroll event updates the state as `Step` does |
| Scroll.ScrollToElement | src/hooks/use-scroll-animation.ts:103-111 | a smooth scroll request iff the element exists, whose top plus the offset (0 by default) is the element's `offsetTop` |
| Scroll.DefaultOffsetIsZero | src/hooks/use-scroll-animation.ts:103 | leaving the offset out scrolls to the element's own top |
| Button.Label | src/components/ui/button-ds.tsx:154 | the loading text iff loading with a non-empty loading text, the children otherwise; at most one child, never the spinner |
| Button.Render | src/components/ui/button-ds.tsx:120-159 | `Slot` iff `asChild`; disabled iff the `disabled` prop is true or loading; `aria-busy` is the loading flag unless the caller's own value overrides it; the spinner iff loading; while loading no icon is shown, while idle both given icons surround the children |
| Button.LoadingDisables | src/components/ui/button-ds.tsx:140 | a loading button is disabled even with `disabled={false}`; an idle one follows its prop |
| Button.EmptyLoadingTextKeepsChildren | src/components/ui/button-ds.tsx:154 | while loading, an empty loading text leaves the children in place |
| Button.ChildCounts | src/components/ui/button-ds.tsx:152-155 | an idle button shows every given node; a loading one shows the spinner first and at most one node after it |
| Button.IconButton | src/components/ui/button-ds.tsx:169-175 | size `icon` and variant `ghost` unless given, the icon as the only child, every other prop passed through |
| Button.IconButtonShowsIcon | src/components/ui/button-ds.tsx:170-172 | an idle icon button with no size or variant renders exactly its icon at size `icon` in the `ghost` variant |
| Button.ButtonGroup | src/components/ui/button-ds.tsx:183-198 | role `group` unless the caller passes a `role`, which the later props spread writes over it; `inline-flex`, then the attached rounding classes iff `attached` (default false) or `gap-2` otherwise, then the caller's class |

## Left out

- `useParallax` (src/hooks/use-scroll-animation.ts:30-48) is not modelled. It multiplies DOM measurements in floating point and has no rule to state beyond the product.
- JavaScript numbers are modelled as `real`. Scroll positions, heights and the progress ratio are exact in the model, and the browser's double rounding is not captured.
- The translation engine and the browser language detector are modelled only by their effect:
  - detection picks the first non-empty candidate in the configured order;
  - the fallback is English;
  - the detected string is kept as the source reported it: the engine's canonicalisation of hyphenated codes (a stored `en-us` becomes `en-US`) is not modelled.
  Translation loading and `supportedLngs` handling are not modelled. The detector's caching is modelled by the entries it leaves in local storage and the cookie jar. The translations of the default title, description and keywords are parameters of `Seo.LocalizedDefaults`.
- I18n.Browser.Init: the string the detector assigns to `document.cookie` when it caches the detected language is built by the detector library (its encoding, expiry date and attribute order), which is not part of this model. `Init` states the cookie it leaves in the jar, but not `lastCookie`, which it leaves unspecified. The detector stores the percent-encoded language and reads it back undecoded, so the jar entry equals the language, as `Init` states, only for tags that need no percent-encoding.
- The cookie jar is a name-to-value map. The `path`, `SameSite` and expiry attributes are not enforced. The whitespace a browser trims around names and values is not modelled, and the cookie string written here has none.
- Focus management is reduced to a "focus returned to the trigger" flag. Event bubbling and the DOM containment test behind "outside the widget" are a boolean parameter.
- `charAt` indexes UTF-16 code units, and Dafny strings index characters. The two agree for the university names in the table.
- I18n.Config: the model uses the decoded strings for both flags (the regional-indicator pairs for GB and KH) and for the Khmer `nativeName` (`ភាសាខ្មែរ`). In src/lib/i18n.ts:15, 21-22 these literals are UTF-8 text that was decoded a second time as Windows-1252 (`ðŸ‡¬ðŸ‡§` and similar), and one byte is missing from the Khmer name. As written, the switcher would display those garbled strings. The model does not reproduce them, because the original text cannot be recovered from them without loss.
- I18n.Lookup: `languages` is a plain object, so `languages[s]` also finds the members every object inherits (`toString`, `constructor`, `__proto__`, `hasOwnProperty` and the rest), and each of them is truthy. The model finds only the two own keys and treats every other string as not found.
- I18n.GetCurrentLanguage: for an active language that names an inherited object member, such as a stored `toString`, the source returns that member rather than the English config. The model returns the English config. Detection accepts any stored string, so such a value can reach it.
- LanguageSwitcher.CurrentLangConfig: the same inherited-member lookup at src/components/LanguageSwitcher.tsx:14 is modelled as the English config.
- The country table is a map of its nine own keys. In the source the lookup goes through a plain object, so a route parameter such as `toString` reaches a prototype member. Such a value is truthy, and the page would try to render it as a country. The model treats every non-key slug as not found.
- framer-motion's `useInView` is left out. `Scroll.InViewSettings` is the options object the hook passes to it, and whether an element is in view is not modelled.
- `useScrollDirection` re-subscribes its listener whenever `lastScrollY` changes. The model assumes each event sees the state left by the previous one, as it does once React has re-rendered between events.
- `cva` and `cn` (tailwind-merge) class resolution is not modelled:
  - `Button.Render` carries the variant and size through as given;
  - `Button.ButtonGroup` returns the class arguments in the order they are handed to `cn`, not the merged string.
- `Slot`'s merging of props into the caller's child, `ref` forwarding and the button's other HTML props are not modelled.
- Button.Render: the `SlotElement` branch for `asChild` stands for an element the source never renders. src/components/ui/button-ds.tsx:152-155 always hands `Comp` four children (`false` and `undefined` entries included), and `Slot` accepts a single child element only, so `asChild` fails at render in the source. The model states only which element is chosen; no caller in the source passes `asChild`.
- react-helmet's merging and deduplication of head tags across components is not modelled. `Seo` returns the tags of one component in the order it declares them.
- `JSON.stringify` is not modelled. Structured data is given as its serialized text.
- The navigation links' `Link` rendering and styling classes are not modelled. Only highlighting and order are.

## Findings

| source | as written | input that shows it | evidently intended | confidence | as-written member | corrected member |
|---|---|---|---|---|---|---|
| src/components/LanguageSwitcher.tsx:105 | the badge is `EN` only for exactly `en` and `KH` for every other value | a browser whose language is `en-US` and no stored preference: detection yields `en-US`, the English config (and flag) is shown, and the badge reads `KH` | the badge names the config that is displayed beside it | medium, not executed | LanguageSwitcher.BadgeAsWritten, LanguageSwitcher.Render, LanguageSwitcher.BadgeAsWrittenMislabelsRegionalEnglish | LanguageSwitcher.Badge, LanguageSwitcher.RenderCorrected |
