/**
 * The language switcher: a trigger button showing the current language and a
 * listbox of the defined languages that is either closed or open.
 *
 * The trigger toggles the listbox on click; on the keyboard, Escape closes it
 * and returns focus to the trigger, ArrowDown and ArrowUp open it, Enter and
 * Space open it when it is closed (and, through the button's own click,
 * close it when it is open), and every other key is ignored.  Choosing
 * an option, by click or by Enter or Space on it, switches the language,
 * closes the listbox and returns focus to the trigger.  A mouse press
 * anywhere outside the widget closes the listbox.
 */
module LanguageSwitcher {
  import opened JsSemantics
  import I18n

  const Escape := "Escape"
  const ArrowDown := "ArrowDown"
  const ArrowUp := "ArrowUp"
  const Enter := "Enter"
  const Space := " "

  /** The keys the trigger's key handler has a case for. */
  predicate HandledTriggerKey(key: string)
  {
    key == Escape || key == ArrowDown || key == ArrowUp || key == Enter || key == Space
  }

  /** `(i18n.language as LanguageCode) || "en"`: only an empty language is replaced. */
  function CurrentLanguage(language: string): (cur: string)
    ensures cur != ""
    ensures language != "" ==> cur == language
    ensures language == "" ==> cur == "en"
  {
    if language == "" then "en" else language
  }

  /** `languages[currentLanguage] || languages.en`. */
  function CurrentLangConfig(cur: string): (cfg: I18n.LanguageConfig)
    ensures cur == "kh" <==> cfg == I18n.Config(I18n.Kh)
    ensures cur != "kh" <==> cfg == I18n.Config(I18n.En)
  {
    I18n.GetCurrentLanguage(cur)
  }

  /**
   * The badge as the component computes it: `EN` for exactly `en`, `KH` for
   * anything else, including a detected browser language such as `en-US`
   * whose config is English.
   */
  function BadgeAsWritten(cur: string): (badge: string)
    ensures badge == "EN" <==> cur == "en"
    ensures badge != "EN" ==> badge == "KH"
  {
    if cur == "en" then "EN" else "KH"
  }


  /** The badge derived from the config that is displayed beside it. */
  function Badge(cur: string): (badge: string)
    ensures badge == "EN" <==> CurrentLangConfig(cur).code == "en"
    ensures badge == "KH" <==> CurrentLangConfig(cur).code == "kh"
    ensures cur == "en" || cur == "kh" ==> badge == BadgeAsWritten(cur)
  {
    if CurrentLangConfig(cur).code == "kh" then "KH" else "EN"
  }

  /** The options in the table's own order (`Object.entries(languages)`). */
  const Entries: seq<I18n.LanguageCode> := [I18n.En, I18n.Kh]

  /** One rendered option of the listbox. */
  datatype OptionView = OptionView(id: string, code: I18n.LanguageCode, flag: string, nativeName: string, name: string,
                                   selected: bool, tabIndex: int)

  function OptionFor(cur: string, isOpen: bool, code: I18n.LanguageCode): OptionView
  {
    var cfg := I18n.Config(code);
    OptionView("lang-" + cfg.code, code, cfg.flag, cfg.nativeName, cfg.name,
               cur == I18n.CodeString(code), if isOpen then 0 else -1)
  }

  /**
   * The listbox's options: one per defined language in table order, with
   * its id, flag and names from its config, marked selected iff it is the
   * current code, and focusable only while the listbox is open.
   */
  function Options(cur: string, isOpen: bool): (opts: seq<OptionView>)
    ensures |opts| == |Entries|
    ensures forall i :: 0 <= i < |opts| ==> opts[i].code == Entries[i]
    ensures forall i :: 0 <= i < |opts| ==> (opts[i].selected <==> cur == I18n.CodeString(Entries[i]))
    ensures forall i :: 0 <= i < |opts| ==>
              opts[i].id == "lang-" + I18n.CodeString(Entries[i]) &&
              opts[i].flag == I18n.Config(Entries[i]).flag &&
              opts[i].nativeName == I18n.Config(Entries[i]).nativeName &&
              opts[i].name == I18n.Config(Entries[i]).name &&
              opts[i].tabIndex == (if isOpen then 0 else -1)
  {
    [OptionFor(cur, isOpen, Entries[0]), OptionFor(cur, isOpen, Entries[1])]
  }

  /** The codes of the options marked selected, in display order. */
  function SelectedCodes(opts: seq<OptionView>): seq<I18n.LanguageCode>
  {
    if opts == [] then []
    else (if opts[0].selected then [opts[0].code] else []) + SelectedCodes(opts[1..])
  }

  /** Exactly the current code's option is selected; for any other value no option is. */
  lemma {:induction false} SelectedOptions(cur: string, isOpen: bool)
    ensures SelectedCodes(Options(cur, isOpen)) == match I18n.Lookup(cur) case Some(c) => [c] case None => []
  {
    var opts := Options(cur, isOpen);
    assert opts[1..][1..] == [];
    assert SelectedCodes(opts[1..]) == (if opts[1].selected then [opts[1].code] else []) + [];
  }

  /** What the widget shows. */
  datatype View = View(expanded: bool, flag: string, badge: string, listbox: Option<seq<OptionView>>)

  /** The widget as the component renders it, with the badge as written. */
  function Render(language: string, isOpen: bool): (v: View)
    ensures v.expanded == isOpen && (v.listbox.Some? <==> isOpen)
    ensures isOpen ==> v.listbox.value == Options(CurrentLanguage(language), isOpen)
    ensures v.flag == CurrentLangConfig(CurrentLanguage(language)).flag
    ensures v.badge == "EN" <==> CurrentLanguage(language) == "en"
    ensures v.badge != "EN" ==> v.badge == "KH"
  {
    var cur := CurrentLanguage(language);
    View(isOpen, CurrentLangConfig(cur).flag, BadgeAsWritten(cur), if isOpen then Some(Options(cur, isOpen)) else None)
  }

  /** The widget with the corrected badge, which always names the config shown beside it. */
  function RenderCorrected(language: string, isOpen: bool): (v: View)
    ensures v.expanded == isOpen && (v.listbox.Some? <==> isOpen)
    ensures v.flag == CurrentLangConfig(CurrentLanguage(language)).flag
    ensures v.badge == "EN" <==> CurrentLangConfig(CurrentLanguage(language)).code == "en"
    ensures v.badge == "KH" <==> CurrentLangConfig(CurrentLanguage(language)).code == "kh"
  {
    Render(language, isOpen).(badge := Badge(CurrentLanguage(language)))
  }

  /** For the two defined codes and for an unset language the component's badge is already the corrected one. */
  lemma RenderAgreesOnDefinedCodes(language: string, isOpen: bool)
    requires language == "en" || language == "kh" || language == ""
    ensures Render(language, isOpen) == RenderCorrected(language, isOpen)
  {
  }

  /**
   * With nothing stored and a browser that prefers `en-US`, the engine
   * starts on `en-US`; the component then shows the English flag beside a
   * `KH` badge, where the corrected badge reads `EN`.
   */
  lemma {:induction false} BadgeAsWrittenMislabelsRegionalEnglish(isOpen: bool)
    ensures var language := I18n.Detect(I18n.BrowserEnv(map[], map[], ["en-US"], ""));
            language == "en-US" &&
            Render(language, isOpen).badge == "KH" &&
            Render(language, isOpen).flag == I18n.Config(I18n.En).flag &&
            RenderCorrected(language, isOpen).badge == "EN"
  {
    var env := I18n.BrowserEnv(map[], map[], ["en-US"], "");
    I18n.DetectNavigator(env);
  }

  /** The widget's state: whether the listbox is open, over the browser's language state. */
  class Switcher {
    var isOpen: bool
    const browser: I18n.Browser

    /** The listbox starts closed. */
    constructor (b: I18n.Browser)
      ensures !isOpen && browser == b
    {
      isOpen := false;
      browser := b;
    }

    function CurrentView(): View
      reads this, browser
    {
      Render(browser.language, isOpen)
    }

    /** The trigger's `onClick`. */
    method TriggerClick()
      modifies this
      ensures isOpen == !old(isOpen)
    {
      isOpen := !isOpen;
    }

    /**
     * The trigger's key handler; `prevented` says whether the default action
     * was prevented, `focusTrigger` whether focus was returned to the trigger.
     */
    method TriggerKeyDown(key: string) returns (prevented: bool, focusTrigger: bool)
      modifies this
      ensures key == Escape ==> !isOpen && focusTrigger && !prevented
      ensures key == ArrowDown || key == ArrowUp ==> isOpen && prevented && !focusTrigger
      ensures key == Enter || key == Space ==> isOpen && prevented == !old(isOpen) && !focusTrigger
      ensures !HandledTriggerKey(key) ==> isOpen == old(isOpen) && !prevented && !focusTrigger
      ensures old(isOpen) && key != Escape ==> isOpen
    {
      prevented, focusTrigger := false, false;
      if key == Escape {
        isOpen := false;
        focusTrigger := true;
      } else if key == ArrowDown || key == ArrowUp {
        prevented := true;
        if !isOpen {
          isOpen := true;
        }
      } else if key == Enter || key == Space {
        if !isOpen {
          prevented := true;
          isOpen := true;
        }
      }
    }

    /**
     * A key pressed on the trigger, followed by the native button's
     * activation: a `button` turns an Enter or Space whose default action was
     * not prevented into a click.  So Enter and Space open a closed listbox
     * (the handler) and close an open one (the click the handler lets through).
     */
    method TriggerKeyPress(key: string) returns (focusTrigger: bool)
      modifies this
      ensures key == Enter || key == Space ==> isOpen == !old(isOpen) && !focusTrigger
      ensures key == Escape ==> !isOpen && focusTrigger
      ensures key == ArrowDown || key == ArrowUp ==> isOpen && !focusTrigger
      ensures !HandledTriggerKey(key) ==> isOpen == old(isOpen) && !focusTrigger
    {
      var prevented;
      prevented, focusTrigger := TriggerKeyDown(key);
      if !prevented && (key == Enter || key == Space) {
        TriggerClick();
      }
    }

    /** `handleLanguageSelect`: switch the language, close, refocus the trigger. */
    method SelectLanguage(code: I18n.LanguageCode) returns (focusTrigger: bool)
      modifies this, browser
      ensures !isOpen && focusTrigger
      ensures browser.language == I18n.CodeString(code) && browser.htmlLang == I18n.CodeString(code)
      ensures browser.htmlDir == "ltr"
      ensures browser.localStorage == old(browser.localStorage)[I18n.PreferenceKey := I18n.CodeString(code)]
      ensures browser.cookies == old(browser.cookies)[I18n.LookupCookie := I18n.CodeString(code)]
      ensures browser.lastCookie == I18n.CookieString(I18n.CodeString(code))
      ensures CurrentView().badge == (if code == I18n.Kh then "KH" else "EN") && CurrentView().listbox.None?
    {
      browser.ChangeLanguage(code);
      isOpen := false;
      focusTrigger := true;
    }

    /** An option's key handler: Enter and Space select it, other keys do nothing. */
    method OptionKeyDown(key: string, code: I18n.LanguageCode) returns (prevented: bool, focusTrigger: bool)
      modifies this, browser
      ensures key == Enter || key == Space ==>
                !isOpen && prevented && focusTrigger &&
                browser.language == I18n.CodeString(code) && browser.htmlLang == I18n.CodeString(code) &&
                browser.htmlDir == "ltr" &&
                browser.localStorage == old(browser.localStorage)[I18n.PreferenceKey := I18n.CodeString(code)] &&
                browser.cookies == old(browser.cookies)[I18n.LookupCookie := I18n.CodeString(code)] &&
                browser.lastCookie == I18n.CookieString(I18n.CodeString(code))
      ensures key != Enter && key != Space ==>
                isOpen == old(isOpen) && !prevented && !focusTrigger && unchanged(browser)
    {
      if key == Enter || key == Space {
        prevented := true;
        focusTrigger := SelectLanguage(code);
      } else {
        prevented, focusTrigger := false, false;
      }
    }

    /** The document's mousedown listener: a press outside the widget closes it. */
    method DocumentMouseDown(insideWidget: bool)
      modifies this
      ensures !insideWidget ==> !isOpen
      ensures insideWidget ==> isOpen == old(isOpen)
    {
      if !insideWidget {
        isOpen := false;
      }
    }
  }
}
