/**
 * The language registry and the persistence of the visitor's language choice.
 *
 * Two languages are defined, English (`en`) and Khmer (`kh`), both written
 * left to right.  The translation engine starts on the first language found,
 * in order, in local storage, in a cookie, in the browser's preferred
 * languages and in the `lang` attribute of the document element; with none it
 * falls back to English.  `changeLanguage` switches the active language,
 * mirrors it into the document element's `lang` and `dir` attributes, and
 * persists it in local storage and in a seven-day, strict same-site cookie
 * (the attributes of RFC 6265, Max-Age in section 5.2.2, Path in section
 * 5.2.4, SameSite as later drafts of that RFC define it).
 */
module I18n {
  import opened JsSemantics

  /** The two defined language codes. */
  datatype LanguageCode = En | Kh

  datatype Direction = Ltr | Rtl

  /** One entry of the `languages` table. */
  datatype LanguageConfig = LanguageConfig(
    code: string,
    name: string,
    nativeName: string,
    flag: string,
    dir: Direction)

  function CodeString(c: LanguageCode): string
  {
    match c
    case En => "en"
    case Kh => "kh"
  }

  /** The value written into the document element's `dir` attribute. */
  function DirString(d: Direction): string
  {
    match d
    case Ltr => "ltr"
    case Rtl => "rtl"
  }

  /** The `languages` table, entry by entry. */
  function Config(c: LanguageCode): (cfg: LanguageConfig)
    ensures cfg.code == CodeString(c)
    ensures cfg.dir == Ltr
  {
    match c
    case En => LanguageConfig("en", "English", "English", "\U{1F1EC}\U{1F1E7}", Ltr)
    case Kh => LanguageConfig("kh", "Khmer", "ភាសាខ្មែរ", "\U{1F1F0}\U{1F1ED}", Ltr)
  }

  /** `languages[s]` for an arbitrary string: only the two own keys are found. */
  function Lookup(s: string): (r: Option<LanguageCode>)
    ensures r.Some? ==> CodeString(r.value) == s
    ensures r.None? ==> forall c: LanguageCode :: CodeString(c) != s
  {
    if s == "en" then Some(En)
    else if s == "kh" then Some(Kh)
    else None
  }

  /** Every code is found again under its own name. */
  lemma LookupCodeString(c: LanguageCode)
    ensures Lookup(CodeString(c)) == Some(c)
  {
  }

  /** `getCurrentLanguage`: the config of the active code, English for any other value. */
  function GetCurrentLanguage(active: string): (cfg: LanguageConfig)
    ensures active == "en" || active == "kh" ==> cfg.code == active
    ensures Lookup(active).Some? ==> cfg == Config(Lookup(active).value)
    ensures active != "en" && active != "kh" ==> cfg == Config(En)
    ensures cfg.dir == Ltr
  {
    match Lookup(active)
    case Some(c) => Config(c)
    case None => Config(En)
  }

  // Detection configuration passed to the translation engine.

  datatype DetectionSource = LocalStorage | Cookie | Navigator | HtmlTag

  const DetectionOrder: seq<DetectionSource> := [LocalStorage, Cookie, Navigator, HtmlTag]
  const LookupLocalStorage := "ds-education-language"
  const LookupCookie := "ds-education-language"
  const CookieMinutes: nat := 10080
  const FallbackLng := "en"

  /** The key `changeLanguage` writes in local storage and names its cookie. */
  const PreferenceKey := "ds-education-language"

  /** The cookie lifetime `changeLanguage` writes, in seconds. */
  function CookieMaxAge(): (seconds: nat)
    ensures seconds == CookieMinutes * 60
    ensures seconds == 7 * 24 * 60 * 60
  {
    60 * 60 * 24 * 7
  }

  /** The decimal digits of `n`, as a template literal prints a non-negative integer. */
  function Decimal(n: nat): string
  {
    var digit := ('0' as int + n % 10) as char;
    if n < 10 then [digit] else Decimal(n / 10) + [digit]
  }

  /** The attributes `changeLanguage` gives its cookie: site-wide, for `CookieMaxAge` seconds, same-site only. */
  function CookieAttributes(): string
  {
    "; path=/; max-age=" + Decimal(CookieMaxAge()) + "; SameSite=Strict"
  }

  /** The exact string `changeLanguage` assigns to `document.cookie`. */
  function CookieString(lang: string): string
  {
    PreferenceKey + "=" + lang + CookieAttributes()
  }

  /** The lifetime in decimal. */
  lemma {:induction false} MaxAgeDigits()
    ensures Decimal(CookieMaxAge()) == "604800"
  {
    assert CookieMaxAge() == 604800;
    assert Decimal(6) == "6";
    assert Decimal(60) == "60";
    assert Decimal(604) == "604";
    assert Decimal(6048) == "6048";
    assert Decimal(60480) == "60480";
  }

  /** The lifetime is written as `max-age=604800`. */
  lemma {:induction false} CookieAttributesText()
    ensures CookieAttributes() == "; path=/; max-age=604800; SameSite=Strict"
  {
    MaxAgeDigits();
  }

  /** The whole cookie string, with its lifetime written out. */
  lemma CookieStringText(lang: string)
    ensures CookieString(lang) == PreferenceKey + "=" + lang + "; path=/; max-age=604800; SameSite=Strict"
  {
    CookieAttributesText();
  }

  /**
   * The name-value pair a cookie jar keeps for a `Set-Cookie` string, as
   * section 5.2 of RFC 6265 reads it: the pair is everything before the first
   * `;`, split at its first `=`; without an `=`, or with an empty name, the
   * string is ignored.
   */
  function ParseCookiePair(header: string): (r: Option<(string, string)>)
    ensures r.Some? ==> r.value.0 != "" && '=' !in r.value.0 && ';' !in r.value.0 && ';' !in r.value.1
  {
    var pair := header[..IndexOf(header, ';')];
    var eq := IndexOf(pair, '=');
    if eq == |pair| || eq == 0 then None
    else Some((pair[..eq], pair[eq + 1..]))
  }

  /** A jar after assigning `header` to `document.cookie`: only the cookie it names changes, and a malformed header changes nothing. */
  function StoreCookie(jar: map<string, string>, header: string): (after: map<string, string>)
    ensures ParseCookiePair(header).None? ==> after == jar
    ensures ParseCookiePair(header).Some? ==>
              var (name, value) := ParseCookiePair(header).value;
              name in after && after[name] == value && after.Keys == jar.Keys + {name} &&
              forall n :: n in jar && n != name ==> after[n] == jar[n]
  {
    match ParseCookiePair(header)
    case Some(p) => jar[p.0 := p.1]
    case None => jar
  }

  /** A `name=value; attributes` string stores exactly `value` under `name`. */
  lemma {:induction false} ParseCookiePairOf(name: string, value: string, attributes: string)
    requires name != "" && '=' !in name && ';' !in name && ';' !in value
    ensures ParseCookiePair(name + "=" + value + ";" + attributes) == Some((name, value))
  {
    var pair := name + "=" + value;
    var header := name + "=" + value + ";" + attributes;
    assert ';' !in pair by {
      forall i | 0 <= i < |pair| ensures pair[i] != ';' {
        if i < |name| { assert pair[i] == name[i]; }
        else if i > |name| { assert pair[i] == value[i - |name| - 1]; }
      }
    }
    assert header == pair + [';'] + attributes;
    IndexOfAfterPrefix(pair, ';', attributes);
    assert header[..IndexOf(header, ';')] == pair;
    assert pair == name + ['='] + value;
    IndexOfAfterPrefix(name, '=', value);
    assert pair[..|name|] == name && pair[|name| + 1..] == value;
  }

  /** The cookie `changeLanguage` writes is read back as exactly `lang` under the detector's key. */
  lemma CookieRoundTrip(c: LanguageCode)
    ensures ParseCookiePair(CookieString(CodeString(c))) == Some((LookupCookie, CodeString(c)))
  {
    CookieStringText(CodeString(c));
    PreferenceCookieParses(CodeString(c));
  }

  lemma PreferenceCookieParses(code: string)
    requires ';' !in code
    ensures ParseCookiePair(PreferenceKey + "=" + code + "; path=/; max-age=604800; SameSite=Strict") == Some((PreferenceKey, code))
  {
    assert '=' !in PreferenceKey && ';' !in PreferenceKey by {
      forall i | 0 <= i < |PreferenceKey| ensures PreferenceKey[i] != '=' && PreferenceKey[i] != ';' { }
    }
    assert PreferenceKey + "=" + code + "; path=/; max-age=604800; SameSite=Strict" ==
           PreferenceKey + "=" + code + ";" + " path=/; max-age=604800; SameSite=Strict";
    ParseCookiePairOf(PreferenceKey, code, " path=/; max-age=604800; SameSite=Strict");
  }

  /** What the detector can see of a browser. */
  datatype BrowserEnv = BrowserEnv(
    localStorage: map<string, string>,
    cookies: map<string, string>,
    navigatorLanguages: seq<string>,
    htmlLang: string)

  /** The language one detection source reports, in the order it reports them. */
  function Found(src: DetectionSource, env: BrowserEnv): seq<string>
  {
    match src
    case LocalStorage => if LookupLocalStorage in env.localStorage then [env.localStorage[LookupLocalStorage]] else []
    case Cookie => if LookupCookie in env.cookies then [env.cookies[LookupCookie]] else []
    case Navigator => env.navigatorLanguages
    case HtmlTag => [env.htmlLang]
  }

  /** All candidates, source after source in `order`. */
  function Candidates(order: seq<DetectionSource>, env: BrowserEnv): seq<string>
  {
    if order == [] then [] else Found(order[0], env) + Candidates(order[1..], env)
  }

  /** The first candidate that is not empty. */
  function FirstNonEmpty(cs: seq<string>): (r: Option<string>)
    ensures r.None? <==> forall i :: 0 <= i < |cs| ==> cs[i] == ""
    ensures r.Some? ==> exists i :: 0 <= i < |cs| && cs[i] == r.value && r.value != "" &&
                                    forall j :: 0 <= j < i ==> cs[j] == ""
  {
    if cs == [] then None
    else if cs[0] != "" then Some(cs[0])
    else
      var r := FirstNonEmpty(cs[1..]);
      assert forall i :: 1 <= i < |cs| ==> cs[i] == cs[1..][i - 1];
      r
  }

  /** The language the translation engine starts on: the first non-empty candidate in detection order, or the fallback when there is none. */
  function Detect(env: BrowserEnv): (lang: string)
    ensures lang != ""
    ensures lang == FallbackLng || lang in Candidates(DetectionOrder, env)
    ensures (forall c :: c in Candidates(DetectionOrder, env) ==> c == "") ==> lang == FallbackLng
    ensures (exists i :: 0 <= i < |Candidates(DetectionOrder, env)| && Candidates(DetectionOrder, env)[i] != "") ==>
              exists i :: 0 <= i < |Candidates(DetectionOrder, env)| && Candidates(DetectionOrder, env)[i] == lang &&
                          forall j :: 0 <= j < i ==> Candidates(DetectionOrder, env)[j] == ""
  {
    match FirstNonEmpty(Candidates(DetectionOrder, env))
    case Some(lang) => lang
    case None => FallbackLng
  }

  /** A stored preference wins over every other source. */
  lemma {:induction false} DetectPrefersLocalStorage(env: BrowserEnv, lang: string)
    requires lang != ""
    ensures Detect(env.(localStorage := env.localStorage[PreferenceKey := lang])) == lang
  {
    var env' := env.(localStorage := env.localStorage[PreferenceKey := lang]);
    assert Candidates(DetectionOrder, env') == [lang] + Candidates(DetectionOrder[1..], env');
  }

  /** Without a local-storage entry, the preference cookie alone still wins. */
  lemma {:induction false} DetectFallsBackToCookie(env: BrowserEnv, lang: string)
    requires lang != "" && LookupLocalStorage !in env.localStorage
    ensures Detect(env.(cookies := env.cookies[PreferenceKey := lang])) == lang
  {
    var env' := env.(cookies := env.cookies[PreferenceKey := lang]);
    assert Candidates(DetectionOrder, env') == [] + ([lang] + Candidates(DetectionOrder[2..], env'));
  }

  /** With nothing stored, the browser's first preferred language wins. */
  lemma {:induction false} DetectNavigator(env: BrowserEnv)
    requires LookupLocalStorage !in env.localStorage && LookupCookie !in env.cookies
    requires |env.navigatorLanguages| > 0 && env.navigatorLanguages[0] != ""
    ensures Detect(env) == env.navigatorLanguages[0]
  {
    var cs := Candidates(DetectionOrder, env);
    assert Candidates(DetectionOrder[2..], env) == env.navigatorLanguages + Candidates(DetectionOrder[3..], env);
    assert Candidates(DetectionOrder[1..], env) == [] + Candidates(DetectionOrder[2..], env);
    assert cs == [] + Candidates(DetectionOrder[1..], env);
    assert cs[0] == env.navigatorLanguages[0];
  }

  /** With nothing stored and no browser language, the document's `lang` attribute decides. */
  lemma {:induction false} DetectHtmlTag(env: BrowserEnv)
    requires LookupLocalStorage !in env.localStorage && LookupCookie !in env.cookies
    requires env.navigatorLanguages == [] && env.htmlLang != ""
    ensures Detect(env) == env.htmlLang
  {
    assert Candidates(DetectionOrder[3..], env) == [env.htmlLang] + Candidates([], env);
    assert Candidates(DetectionOrder[2..], env) == [] + Candidates(DetectionOrder[3..], env);
    assert Candidates(DetectionOrder, env) == [env.htmlLang];
  }

  /** With nothing stored, no browser language and no `lang` attribute, the engine starts on English. */
  lemma {:induction false} DetectDefaultsToEnglish(env: BrowserEnv)
    requires LookupLocalStorage !in env.localStorage && LookupCookie !in env.cookies
    requires env.navigatorLanguages == [] && env.htmlLang == ""
    ensures Detect(env) == "en"
  {
    assert Candidates(DetectionOrder[3..], env) == [""] + Candidates([], env);
    assert Candidates(DetectionOrder[2..], env) == [] + Candidates(DetectionOrder[3..], env);
    assert Candidates(DetectionOrder, env) == [""];
  }

  /** The browser state the language module reads and writes. */
  class Browser {
    /** The translation engine's active language. */
    var language: string
    /** `document.documentElement.lang` and `.dir`. */
    var htmlLang: string
    var htmlDir: string
    var localStorage: map<string, string>
    /** The cookie jar, name to value, and the last string assigned to `document.cookie`. */
    var cookies: map<string, string>
    var lastCookie: string
    const navigatorLanguages: seq<string>

    function Env(): BrowserEnv
      reads this
    {
      BrowserEnv(localStorage, cookies, navigatorLanguages, htmlLang)
    }

    /**
     * Module initialisation over a document whose element carries `lang` and
     * `dir`: detect the language and cache it in local storage and in the
     * cookie, the two caches the detection options name (the detector's
     * cookie has the same lifetime, `CookieMaxAge`).  The document's
     * attributes are left as they were.
     */
    constructor Init(storage: map<string, string>, jar: map<string, string>, navigator: seq<string>,
                     lang: string, dir: string)
      ensures language == Detect(BrowserEnv(storage, jar, navigator, lang))
      ensures htmlLang == lang && htmlDir == dir && navigatorLanguages == navigator
      ensures localStorage == storage[LookupLocalStorage := language]
      ensures cookies == jar[LookupCookie := language]
    {
      var detected := Detect(BrowserEnv(storage, jar, navigator, lang));
      language := detected;
      htmlLang, htmlDir := lang, dir;
      localStorage := storage[LookupLocalStorage := detected];
      cookies := jar[LookupCookie := detected];
      navigatorLanguages := navigator;
    }

    /** `changeLanguage(lang)`. */
    method ChangeLanguage(lang: LanguageCode)
      modifies this
      ensures language == CodeString(lang)
      ensures htmlLang == CodeString(lang) && htmlDir == DirString(Config(lang).dir) && htmlDir == "ltr"
      ensures localStorage == old(localStorage)[PreferenceKey := CodeString(lang)]
      ensures lastCookie == CookieString(CodeString(lang))
      ensures cookies == old(cookies)[LookupCookie := CodeString(lang)]
      ensures Detect(Env()) == CodeString(lang)
      ensures GetCurrentLanguage(language) == Config(lang)
    {
      language := CodeString(lang);
      var dir := Config(lang).dir;
      htmlDir := DirString(dir);
      htmlLang := CodeString(lang);
      localStorage := localStorage[PreferenceKey := CodeString(lang)];
      var header := CookieString(CodeString(lang));
      lastCookie := header;
      CookieRoundTrip(lang);
      cookies := StoreCookie(cookies, header);
      DetectPrefersLocalStorage(old(Env()).(htmlLang := htmlLang, cookies := cookies), CodeString(lang));
    }
  }

  /**
   * A reload after `changeLanguage(c)`: the engine starts on `c` again, and
   * caching the detected language leaves the stored preference as it was.
   */
  lemma {:induction false} ReloadRestoresLanguage(env: BrowserEnv, c: LanguageCode)
    ensures var saved := env.(localStorage := env.localStorage[PreferenceKey := CodeString(c)],
                              cookies := StoreCookie(env.cookies, CookieString(CodeString(c))));
            Detect(saved) == CodeString(c) && GetCurrentLanguage(Detect(saved)) == Config(c)
  {
    CookieRoundTrip(c);
    DetectPrefersLocalStorage(env.(cookies := StoreCookie(env.cookies, CookieString(CodeString(c)))), CodeString(c));
  }
}
