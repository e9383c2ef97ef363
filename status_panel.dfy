/**
 * The status panel's state handler (src/composables/useStatusPanelEventHandler.js).
 *
 * The refs the composable owns (`portStatus`, `portName`, `portNum`, `selectedLang`)
 * are fields of `StatusPanel`; the refs its caller passes in (`locale`,
 * `tableColumns`, `tabList`) are fields of `ViewRefs`. The translation function `t`
 * of vue-i18n reads the current locale, so it is modelled as a function of the
 * locale and the message key, about which nothing is assumed.
 */
module StatusPanelEventHandler {
  import opened Types
  import CommandUtil

  /** A column of the partition table; the width is its percentage of the table. */
  datatype Column = Column(key: string, caption: string, widthPercent: nat)

  datatype Tab = Tab(key: string, caption: string)

  /** `t(key)` under the current locale. */
  type Translate = (string, string) -> string

  /** The selectable languages, by locale code. */
  const DisplayLang: map<string, string> := map[
    "en" := "English",
    "ru" := "Russian (русский язык)",
    "zh-CN" := "Simplified  Chinese (简体中文)",
    "zh-TW" := "Traditional Chinese (正體中文)"]

  /** The properties every plain JavaScript object inherits from `Object.prototype`. */
  const ObjectPrototypeNames: set<string> := {
    "constructor", "hasOwnProperty", "isPrototypeOf", "propertyIsEnumerable",
    "toLocaleString", "toString", "valueOf", "__proto__",
    "__defineGetter__", "__defineSetter__", "__lookupGetter__", "__lookupSetter__"}

  // ---------------------------------------------------------------------------
  // Locale resolution (the `onMounted` handler)
  // ---------------------------------------------------------------------------

  predicate IsAsciiLetter(c: char) {
    'a' <= c <= 'z' || 'A' <= c <= 'Z'
  }

  /** The match of `/^[a-zA-Z]+/`, or "" when there is none. */
  function LeadingLetters(s: string): string {
    if s != [] && IsAsciiLetter(s[0]) then [s[0]] + LeadingLetters(s[1..]) else ""
  }

  /** `LeadingLetters(s)` is the longest prefix of `s` made of ASCII letters only. */
  lemma {:induction false} LeadingLettersIsLongestLetterPrefix(s: string)
    ensures LeadingLetters(s) <= s
    ensures forall i :: 0 <= i < |LeadingLetters(s)| ==> IsAsciiLetter(LeadingLetters(s)[i])
    ensures |LeadingLetters(s)| < |s| ==> !IsAsciiLetter(s[|LeadingLetters(s)|])
  {
    if s != [] && IsAsciiLetter(s[0]) {
      LeadingLettersIsLongestLetterPrefix(s[1..]);
    }
  }

  /** A language code followed by a separator such as "-" or "_" yields that code. */
  lemma {:induction false} LeadingLettersOfTaggedLocale(code: string, rest: string)
    requires forall i :: 0 <= i < |code| ==> IsAsciiLetter(code[i])
    requires rest == [] || !IsAsciiLetter(rest[0])
    ensures LeadingLetters(code + rest) == code
  {
    if code == [] {
      assert code + rest == rest;
    } else {
      assert (code + rest)[1..] == code[1..] + rest;
      LeadingLettersOfTaggedLocale(code[1..], rest);
    }
  }

  /** JavaScript's `key in displayLang`, which also holds for inherited property names. */
  predicate InDisplayLangObject(key: string) {
    key in DisplayLang || key in ObjectPrototypeNames
  }

  /** Locale resolution exactly as written, with JavaScript's `in` operator. */
  function ResolveLocaleAsWritten(systemLocale: string): string {
    var langCode := LeadingLetters(systemLocale);
    if InDisplayLangObject(systemLocale) then systemLocale
    else if InDisplayLangObject(langCode) then langCode
    else "en"
  }

  /** As written, a locale named like an inherited property is selected although it is no language. */
  lemma ResolveLocaleAsWrittenEscapes(systemLocale: string)
    requires systemLocale in ObjectPrototypeNames
    ensures ResolveLocaleAsWritten(systemLocale) == systemLocale
    ensures systemLocale !in DisplayLang
  {
  }

  /**
   * Locale resolution with own keys only: the locale itself when it is a language
   * code, else its leading letters when they are one, else "en".
   */
  function ResolveLocale(systemLocale: string): (lang: string)
    ensures lang in DisplayLang
    ensures systemLocale in DisplayLang ==> lang == systemLocale
    ensures lang == systemLocale || lang == "en" || (lang <= systemLocale && lang != "")
    ensures (systemLocale !in DisplayLang && LeadingLetters(systemLocale) in DisplayLang) ==>
              lang == LeadingLetters(systemLocale)
    ensures (systemLocale !in DisplayLang && LeadingLetters(systemLocale) !in DisplayLang) ==>
              lang == "en"
  {
    var langCode := LeadingLetters(systemLocale);
    LeadingLettersIsLongestLetterPrefix(systemLocale);
    if systemLocale in DisplayLang then systemLocale
    else if langCode in DisplayLang then langCode
    else "en"
  }

  /** The two resolutions differ only on locales or prefixes named like inherited properties. */
  lemma ResolveLocaleAgreesOutsidePrototypeNames(systemLocale: string)
    requires systemLocale !in ObjectPrototypeNames
    requires LeadingLetters(systemLocale) !in ObjectPrototypeNames
    ensures ResolveLocaleAsWritten(systemLocale) == ResolveLocale(systemLocale)
  {
  }

  /** A selectable language resolves to itself, so resolving twice changes nothing. */
  lemma ResolveLocaleIdempotent(systemLocale: string)
    ensures ResolveLocale(ResolveLocale(systemLocale)) == ResolveLocale(systemLocale)
  {
  }

  /** A regional variant of "en" or "ru" that is not itself a key resolves to its language. */
  lemma ResolveLocaleRegionalVariant(code: string, rest: string)
    requires code == "en" || code == "ru"
    requires rest == [] || !IsAsciiLetter(rest[0])
    requires code + rest !in DisplayLang
    ensures ResolveLocale(code + rest) == code
  {
    LeadingLettersOfTaggedLocale(code, rest);
  }

  /** An exact key is kept, and a regional variant gives its language. */
  lemma ResolveLocaleExamples()
    ensures ResolveLocale("zh-TW") == "zh-TW"
    ensures ResolveLocale("ru-RU") == "ru"
    ensures ResolveLocale("en_US") == "en"
  {
    LeadingLettersOfTaggedLocale("ru", "-RU");
    LeadingLettersOfTaggedLocale("en", "_US");
  }

  /**
   * Matching is case-sensitive, a Chinese locale other than zh-CN or zh-TW falls back
   * to "en", and so does a locale that does not start with a letter.
   */
  lemma ResolveLocaleFallbackExamples()
    ensures ResolveLocale("zh-HK") == "en"
    ensures ResolveLocale("ZH-CN") == "en"
    ensures ResolveLocale("1en") == "en"
  {
  }

  // ---------------------------------------------------------------------------
  // The tables rebuilt on a language change
  // ---------------------------------------------------------------------------

  function TableColumns(locale: string, t: Translate): seq<Column> {
    [ Column("chk", "", 5),
      Column("lun", "LUN", 5),
      Column("partName", t(locale, "part.name"), 10),
      Column("partSize", t(locale, "part.size"), 10),
      Column("partStart", t(locale, "part.start"), 10),
      Column("partNum", t(locale, "part.num"), 10),
      Column("imgPath", t(locale, "part.imgPath"), 40),
      Column("sel", t(locale, "config.selectBtn"), 10) ]
  }

  function TabList(locale: string, t: Translate): seq<Tab> {
    [ Tab("tab_part", t(locale, "part.title")),
      Tab("tab_edl", t(locale, "edl.title")),
      Tab("tab_adv", t(locale, "advanced.title")),
      Tab("tab_setting", t(locale, "setting.title")) ]
  }

  function ColumnKeys(columns: seq<Column>): seq<string> {
    seq(|columns|, i requires 0 <= i < |columns| => columns[i].key)
  }

  function WidthSum(columns: seq<Column>): nat {
    if columns == [] then 0 else columns[0].widthPercent + WidthSum(columns[1..])
  }

  /** The partition table has its eight columns in order. */
  lemma TableColumnsKeys(locale: string, t: Translate)
    ensures ColumnKeys(TableColumns(locale, t))
              == ["chk", "lun", "partName", "partSize", "partStart", "partNum", "imgPath", "sel"]
  {
  }

  /** The column widths fill the table: they sum to 100%. */
  lemma TableColumnsWidths(locale: string, t: Translate)
    ensures WidthSum(TableColumns(locale, t)) == 100
  {
    var c := TableColumns(locale, t);
    assert WidthSum(c[8..]) == 0;
    assert WidthSum(c[7..]) == 10;
    assert WidthSum(c[6..]) == 50;
    assert WidthSum(c[5..]) == 60;
    assert WidthSum(c[4..]) == 70;
    assert WidthSum(c[3..]) == 80;
    assert WidthSum(c[2..]) == 90;
    assert WidthSum(c[1..]) == 95;
  }

  /** The four tabs, in order. */
  lemma TabListShape(locale: string, t: Translate)
    ensures |TabList(locale, t)| == 4
    ensures forall i :: 0 <= i < 4 ==>
              TabList(locale, t)[i].key == ["tab_part", "tab_edl", "tab_adv", "tab_setting"][i]
  {
  }

  // ---------------------------------------------------------------------------
  // State
  // ---------------------------------------------------------------------------

  /** The refs the caller hands to the composable. */
  class ViewRefs {
    var locale: string
    var tableColumns: seq<Column>
    var tabList: seq<Tab>

    constructor (locale: string, tableColumns: seq<Column>, tabList: seq<Tab>)
      ensures this.locale == locale && this.tableColumns == tableColumns && this.tabList == tabList
    {
      this.locale := locale;
      this.tableColumns := tableColumns;
      this.tabList := tabList;
    }
  }

  class StatusPanel {
    const view: ViewRefs
    const t: Translate
    var portStatus: string
    var portName: string
    var portNum: string
    var selectedLang: string

    constructor (view: ViewRefs, t: Translate)
      ensures this.view == view && this.t == t
      ensures portStatus == "EDL device not found"
      ensures portName == "N/A"
      ensures portNum == ""
      ensures selectedLang == "en"
    {
      this.view := view;
      this.t := t;
      portStatus := "EDL device not found";
      portName := "N/A";
      portNum := "";
      selectedLang := "en";
    }

    /** `handleSelectLangChange`: switch the locale, then rebuild both tables in the new language. */
    method HandleSelectLangChange()
      modifies view
      ensures view.locale == selectedLang
      ensures view.tableColumns == TableColumns(selectedLang, t)
      ensures view.tabList == TabList(selectedLang, t)
    {
      view.locale := selectedLang;
      view.tableColumns := TableColumns(view.locale, t);
      view.tabList := TabList(view.locale, t);
    }

    /** `updatePort`, given the pair the back end answered. */
    method UpdatePort(num: string, name: string)
      modifies this`portNum, this`portName, this`portStatus
      ensures portNum == num
      ensures portName == if num == CommandUtil.NotFound then "N/A" else name
      ensures portStatus == t(view.locale,
                if num == CommandUtil.NotFound then "config.portStatusError" else "config.portStatus")
    {
      portNum := num;
      portName := name;
      if portNum == CommandUtil.NotFound {
        portStatus := t(view.locale, "config.portStatusError");
        portName := "N/A";
      } else {
        portStatus := t(view.locale, "config.portStatus");
      }
    }

    /**
     * The `onMounted` handler, given what the OS-locale plugin answered. When it
     * answers null, matching the locale throws: nothing is selected and the tables
     * are not rebuilt.
     */
    method OnMounted(systemLocale: Option<string>)
      modifies this`selectedLang, view
      ensures systemLocale.None? ==> selectedLang == old(selectedLang) && unchanged(view)
      ensures systemLocale.Some? ==>
        && selectedLang == ResolveLocale(systemLocale.value) && selectedLang in DisplayLang
        && view.locale == selectedLang
        && view.tableColumns == TableColumns(selectedLang, t)
        && view.tabList == TabList(selectedLang, t)
    {
      if systemLocale.Some? {
        selectedLang := ResolveLocale(systemLocale.value);
        HandleSelectLangChange();
      }
    }
  }
}
