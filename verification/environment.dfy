/** The environment profiler of the audio manager: browser classification from
    the user-agent string, the speech-synthesis compatibility verdict, and the
    extra delay some devices get before an utterance is spoken. Every pattern
    of the source is a case-insensitive regular expression; here each is a
    lower-case literal tested with `ContainsCI`. */
module Environment {
  import opened Text

  datatype Browser = WeChat | Baidu | QQ | UC | Miui | Chrome | Safari | Firefox | UnknownBrowser
  {
    /** The label the source logs for the browser. */
    function Label(): string {
      match this
      case WeChat => "微信浏览器"
      case Baidu => "百度浏览器"
      case QQ => "QQ浏览器"
      case UC => "UC浏览器"
      case Miui => "小米浏览器"
      case Chrome => "Chrome"
      case Safari => "Safari"
      case Firefox => "Firefox"
      case UnknownBrowser => "未知浏览器"
    }
  }

  datatype Reason = NoReason | NoSpeechApi | IncompleteSupport
  {
    function Text(): string {
      match this
      case NoReason => ""
      case NoSpeechApi => "浏览器不支持 Web Speech API"
      case IncompleteSupport => "该浏览器对语音合成支持不完整"
    }
  }

  datatype Compatibility = Compatibility(supported: bool, browserName: Browser, reason: Reason)

  /** The browser family, decided by the first matching test of the source's
      if-chain. */
  function DetectBrowser(ua: string): Browser {
    if ContainsCI(ua, "micromessenger") then WeChat
    else if ContainsCI(ua, "baiduboxapp") || ContainsCI(ua, "baidubrowser") then Baidu
    else if ContainsCI(ua, "qqbrowser") then QQ
    else if ContainsCI(ua, "ucbrowser") then UC
    else if ContainsCI(ua, "miuibrowser") then Miui
    else if ContainsCI(ua, "chrome") then Chrome
    else if ContainsCI(ua, "safari") then Safari
    else if ContainsCI(ua, "firefox") then Firefox
    else UnknownBrowser
  }

  /** The in-app browsers whose speech synthesis the source treats as broken. */
  predicate SpeechUnreliable(ua: string) {
    ContainsCI(ua, "micromessenger") || ContainsCI(ua, "baiduboxapp") || ContainsCI(ua, "baidubrowser")
  }

  /** `checkBrowserCompatibility`: the absence of the speech API is checked
      first, then the in-app browsers; everything else is supported. */
  function CheckBrowserCompatibility(ua: string, hasSpeechSynthesis: bool): (r: Compatibility)
    ensures r.browserName == DetectBrowser(ua)
    ensures r.supported <==> hasSpeechSynthesis && !SpeechUnreliable(ua)
    ensures r.supported <==> r.reason == NoReason
    ensures !hasSpeechSynthesis ==> r.reason == NoSpeechApi
    ensures hasSpeechSynthesis && !r.supported ==> r.reason == IncompleteSupport
  {
    var name := DetectBrowser(ua);
    if !hasSpeechSynthesis then Compatibility(false, name, NoSpeechApi)
    else if SpeechUnreliable(ua) then Compatibility(false, name, IncompleteSupport)
    else Compatibility(true, name, NoReason)
  }

  /** With the speech API present, synthesis is refused exactly in the two
      browser families classified as WeChat and Baidu. */
  lemma UnsupportedExactlyInChatBrowsers(ua: string)
    ensures CheckBrowserCompatibility(ua, true).supported
            <==> DetectBrowser(ua) != WeChat && DetectBrowser(ua) != Baidu
  {
  }

  /** The classification as a table of (patterns, browser) rows, tried in order. */
  const BrowserTable: seq<(seq<string>, Browser)> := [
    (["micromessenger"], WeChat),
    (["baiduboxapp", "baidubrowser"], Baidu),
    (["qqbrowser"], QQ),
    (["ucbrowser"], UC),
    (["miuibrowser"], Miui),
    (["chrome"], Chrome),
    (["safari"], Safari),
    (["firefox"], Firefox)
  ]

  /** Some pattern of the row matches. */
  predicate AnyPattern(ua: string, patterns: seq<string>) {
    patterns != [] && (ContainsCI(ua, patterns[0]) || AnyPattern(ua, patterns[1..]))
  }

  /** The browser of the first row with a matching pattern, or UnknownBrowser. */
  function FirstMatchingRow(table: seq<(seq<string>, Browser)>, ua: string): Browser {
    if table == [] then UnknownBrowser
    else if AnyPattern(ua, table[0].0) then table[0].1
    else FirstMatchingRow(table[1..], ua)
  }

  /** A named browser comes from a row with a matching pattern, and no earlier
      row matches. */
  lemma {:induction false} FirstMatchingRowIsFirst(table: seq<(seq<string>, Browser)>, ua: string)
    requires forall k | 0 <= k < |table| :: table[k].1 != UnknownBrowser
    ensures var b := FirstMatchingRow(table, ua);
            && (b == UnknownBrowser <==> forall k | 0 <= k < |table| :: !AnyPattern(ua, table[k].0))
            && (b != UnknownBrowser ==>
                  exists k | 0 <= k < |table| :: table[k].1 == b && AnyPattern(ua, table[k].0)
                    && forall m | 0 <= m < k :: !AnyPattern(ua, table[m].0))
  {
    if table != [] && !AnyPattern(ua, table[0].0) {
      var rest := table[1..];
      FirstMatchingRowIsFirst(rest, ua);
      var b := FirstMatchingRow(rest, ua);
      if b != UnknownBrowser {
        var k :| 0 <= k < |rest| && rest[k].1 == b && AnyPattern(ua, rest[k].0)
                 && forall m | 0 <= m < k :: !AnyPattern(ua, rest[m].0);
        assert table[k + 1] == rest[k];
        forall m | 0 <= m < k + 1 ensures !AnyPattern(ua, table[m].0) {
          if m > 0 { assert table[m] == rest[m - 1]; }
        }
      } else {
        forall k | 0 <= k < |table| ensures !AnyPattern(ua, table[k].0) {
          if k > 0 { assert table[k] == rest[k - 1]; }
        }
      }
    } else if table != [] {
      assert table[0].1 != UnknownBrowser;
    }
  }

  /** The if-chain and the table agree on every user agent: the first matching
      pattern in the order WeChat, Baidu, QQ, UC, Miui, Chrome, Safari, Firefox
      names the browser. */
  lemma DetectBrowserFollowsTable(ua: string)
    ensures DetectBrowser(ua) == FirstMatchingRow(BrowserTable, ua)
  {
    var t := BrowserTable;
    var t1, t2, t3, t4 := t[1..], t[2..], t[3..], t[4..];
    assert t1 == t[1..] && t2 == t1[1..] && t3 == t2[1..] && t4 == t3[1..];
    assert AnyPattern(ua, t[0].0) <==> ContainsCI(ua, "micromessenger");
    var baidu := t1[0].0;
    assert baidu == ["baiduboxapp", "baidubrowser"];
    assert baidu[1..] == ["baidubrowser"] && baidu[1..][1..] == [];
    assert AnyPattern(ua, baidu[1..][1..]) == false;
    assert AnyPattern(ua, baidu[1..]) <==> ContainsCI(ua, "baidubrowser");
    assert AnyPattern(ua, t1[0].0) <==> ContainsCI(ua, "baiduboxapp") || ContainsCI(ua, "baidubrowser");
    assert AnyPattern(ua, t2[0].0) <==> ContainsCI(ua, "qqbrowser");
    assert AnyPattern(ua, t3[0].0) <==> ContainsCI(ua, "ucbrowser");
    TableTailFollows(ua);
    assert FirstMatchingRow(t3, ua) == if ContainsCI(ua, "ucbrowser") then UC else FirstMatchingRow(t4, ua);
    assert FirstMatchingRow(t2, ua) == if ContainsCI(ua, "qqbrowser") then QQ else FirstMatchingRow(t3, ua);
  }

  /** The last four rows: Miui, Chrome, Safari, Firefox. */
  lemma TableTailFollows(ua: string)
    ensures FirstMatchingRow(BrowserTable[4..], ua)
            == if ContainsCI(ua, "miuibrowser") then Miui
               else if ContainsCI(ua, "chrome") then Chrome
               else if ContainsCI(ua, "safari") then Safari
               else if ContainsCI(ua, "firefox") then Firefox
               else UnknownBrowser
  {
    var t4 := BrowserTable[4..];
    var t5, t6, t7, t8 := t4[1..], t4[2..], t4[3..], t4[4..];
    assert t6 == t5[1..] && t7 == t6[1..] && t8 == t7[1..] && t8 == [];
    assert AnyPattern(ua, t4[0].0) <==> ContainsCI(ua, "miuibrowser");
    assert AnyPattern(ua, t5[0].0) <==> ContainsCI(ua, "chrome");
    assert AnyPattern(ua, t6[0].0) <==> ContainsCI(ua, "safari");
    assert AnyPattern(ua, t7[0].0) <==> ContainsCI(ua, "firefox");
    assert FirstMatchingRow(t7, ua) == if ContainsCI(ua, "firefox") then Firefox else UnknownBrowser;
    assert FirstMatchingRow(t6, ua) == if ContainsCI(ua, "safari") then Safari else FirstMatchingRow(t7, ua);
    assert FirstMatchingRow(t5, ua) == if ContainsCI(ua, "chrome") then Chrome else FirstMatchingRow(t6, ua);
  }

  /** The delay in milliseconds before `speechSynthesis.speak`, chosen by the
      test `/Xiaomi|Mi|Redmi|MIUI/i`. */
  function SpeakDelay(ua: string): nat {
    if ContainsCI(ua, "xiaomi") || ContainsCI(ua, "mi") || ContainsCI(ua, "redmi") || ContainsCI(ua, "miui")
    then 150
    else 50
  }

  /** Every alternative of the device test contains "mi", so the long delay is
      chosen exactly for the user agents that contain "mi" in any case. */
  lemma SpeakDelayIsMiTest(ua: string)
    ensures SpeakDelay(ua) == 150 <==> ContainsCI(ua, "mi")
    ensures SpeakDelay(ua) == 50 <==> !ContainsCI(ua, "mi")
  {
    var l := Lower(ua);
    if ContainsCI(ua, "xiaomi") {
      assert MatchesAt("xiaomi", "mi", 4);
      ContainsTransitive(l, "xiaomi", "mi");
    }
    if ContainsCI(ua, "redmi") {
      assert MatchesAt("redmi", "mi", 3);
      ContainsTransitive(l, "redmi", "mi");
    }
    if ContainsCI(ua, "miui") {
      assert MatchesAt("miui", "mi", 0);
      ContainsTransitive(l, "miui", "mi");
    }
  }

  /** The MIUI browser always gets the long delay. */
  lemma MiuiBrowserGetsLongDelay(ua: string)
    requires DetectBrowser(ua) == Miui
    ensures SpeakDelay(ua) == 150
  {
    assert MatchesAt("miuibrowser", "mi", 0);
    ContainsTransitive(Lower(ua), "miuibrowser", "mi");
    SpeakDelayIsMiTest(ua);
  }

  /** A desktop Chromium user agent, unrelated to Xiaomi devices, also gets the
      long delay, because the test matches the "mi" of "Chromium". */
  lemma ChromiumGetsLongDelay()
    ensures SpeakDelay("Chromium/120.0") == 150
  {
    var l := Lower("Chromium/120.0");
    assert l[4] == 'm' && l[5] == 'i';
    assert l[4..6] == "mi";
    assert MatchesAt(l, "mi", 4);
  }
}
