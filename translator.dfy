/** The phrase translator (client/src/components/ui/language-translator.tsx):
    a fixed table of six common phrases in seven languages, a mock lookup that
    scans it in order and falls back to tagging the text with the target
    language, the language swap, and phrase selection. The delayed lookup is
    split into the click, which records what the timer will translate, and the
    timer firing. */
module Translator {
  import opened Common
  import opened Text

  /** One row of `commonPhrases`: the key and its entries by language code. */
  datatype Phrase = Phrase(key: string, translations: map<string, string>)

  datatype Language = Language(code: string, name: string)

  const SupportedLanguages: seq<Language> := [
    Language("en", "English"), Language("ja", "Japanese"), Language("fr", "French"),
    Language("es", "Spanish"), Language("de", "German"), Language("zh", "Chinese"),
    Language("ko", "Korean")
  ]

  /** The table, in the order `Object.entries` visits it. */
  const CommonPhrases: seq<Phrase> := [
    Phrase("Hello", map[
      "en" := "Hello", "ja" := "こんにちは (Konnichiwa)", "fr" := "Bonjour", "es" := "Hola",
      "de" := "Hallo", "zh" := "你好 (Nǐ hǎo)", "ko" := "안녕하세요 (Annyeonghaseyo)"]),
    Phrase("Thank you", map[
      "en" := "Thank you", "ja" := "ありがとう (Arigatou)", "fr" := "Merci", "es" := "Gracias",
      "de" := "Danke", "zh" := "谢谢 (Xièxiè)", "ko" := "감사합니다 (Gamsahamnida)"]),
    Phrase("Excuse me", map[
      "en" := "Excuse me", "ja" := "すみません (Sumimasen)", "fr" := "Excusez-moi", "es" := "Disculpe",
      "de" := "Entschuldigung", "zh" := "对不起 (Duìbùqǐ)", "ko" := "실례합니다 (Sillyehamnida)"]),
    Phrase("Where is the bathroom?", map[
      "en" := "Where is the bathroom?", "ja" := "お手洗いはどこですか？ (Otearai wa doko desu ka?)",
      "fr" := "Où sont les toilettes?", "es" := "¿Dónde está el baño?", "de" := "Wo ist die Toilette?",
      "zh" := "洗手间在哪里？ (Xǐshǒujiān zài nǎlǐ?)",
      "ko" := "화장실이 어디에 있습니까? (Hwajangsil-i eodie issseumnikka?)"]),
    Phrase("How much is this?", map[
      "en" := "How much is this?", "ja" := "これはいくらですか？ (Kore wa ikura desu ka?)",
      "fr" := "Combien ça coûte?", "es" := "¿Cuánto cuesta esto?", "de" := "Wie viel kostet das?",
      "zh" := "这个多少钱？ (Zhège duōshǎo qián?)", "ko" := "이거 얼마예요? (Igeo eolmayeyo?)"]),
    Phrase("I don't understand", map[
      "en" := "I don't understand", "ja" := "わかりません (Wakarimasen)", "fr" := "Je ne comprends pas",
      "es" := "No entiendo", "de" := "Ich verstehe nicht", "zh" := "我不明白 (Wǒ bù míngbái)",
      "ko" := "이해가 안 됩니다 (Ihaega an doepnida)"])
  ]

  /** A phrase has a non-empty entry for every supported language. */
  predicate Complete(p: Phrase)
  {
    forall i :: 0 <= i < |SupportedLanguages| ==>
      SupportedLanguages[i].code in p.translations && p.translations[SupportedLanguages[i].code] != ""
  }

  /** The seven codes spelled out. */
  predicate HasSevenEntries(t: map<string, string>)
  {
    "en" in t && "ja" in t && "fr" in t && "es" in t && "de" in t && "zh" in t && "ko" in t
    && t["en"] != "" && t["ja"] != "" && t["fr"] != "" && t["es"] != "" && t["de"] != ""
    && t["zh"] != "" && t["ko"] != ""
  }

  lemma SevenEntriesComplete(p: Phrase)
    requires HasSevenEntries(p.translations)
    ensures Complete(p)
  {
    forall i | 0 <= i < |SupportedLanguages|
      ensures SupportedLanguages[i].code in {"en", "ja", "fr", "es", "de", "zh", "ko"}
    {
    }
  }

  /** Row `k` has all seven entries and its English entry is its key. */
  predicate RowOk(k: nat)
    requires k < |CommonPhrases|
  {
    HasSevenEntries(CommonPhrases[k].translations)
    && CommonPhrases[k].translations["en"] == CommonPhrases[k].key
  }

  lemma RowComplete(k: nat)
    requires k < |CommonPhrases|
    ensures RowOk(k)
  {
    if k == 0 { RowZero(); }
    else if k == 1 { RowOne(); }
    else if k == 2 { RowTwo(); }
    else if k == 3 { RowThree(); }
    else if k == 4 { RowFour(); }
    else { RowFive(); }
  }

  lemma RowZero() ensures RowOk(0) {}
  lemma RowOne() ensures RowOk(1) {}
  lemma RowTwo() ensures RowOk(2) {}
  lemma RowThree() ensures RowOk(3) {}
  lemma RowFour() ensures RowOk(4) {}
  lemma RowFive() ensures RowOk(5) {}

  /** Every row of the table covers all seven languages, and its English entry
      is its key. */
  lemma PhraseTableComplete()
    ensures |CommonPhrases| == 6 && |SupportedLanguages| == 7
    ensures forall k :: 0 <= k < |CommonPhrases| ==> Complete(CommonPhrases[k])
    ensures forall k :: 0 <= k < |CommonPhrases| ==>
              "en" in CommonPhrases[k].translations
              && CommonPhrases[k].translations["en"] == CommonPhrases[k].key
  {
    forall k | 0 <= k < |CommonPhrases|
      ensures Complete(CommonPhrases[k])
      ensures "en" in CommonPhrases[k].translations
              && CommonPhrases[k].translations["en"] == CommonPhrases[k].key
    {
      RowComplete(k);
      SevenEntriesComplete(CommonPhrases[k]);
    }
  }

  /** The test inside the scan: the text is the phrase key up to case, or it is
      exactly the phrase's entry for the source language. */
  predicate PhraseMatches(text: string, sourceLang: string, p: Phrase)
  {
    Lower(text) == Lower(p.key)
    || (sourceLang in p.translations && text == p.translations[sourceLang])
  }

  /** The first phrase, in table order, that matches. */
  function FirstMatch(phrases: seq<Phrase>, text: string, sourceLang: string): (r: Option<Phrase>)
    ensures r.None? <==> forall i :: 0 <= i < |phrases| ==> !PhraseMatches(text, sourceLang, phrases[i])
    ensures r.Some? ==> exists k :: 0 <= k < |phrases| && phrases[k] == r.value
                          && PhraseMatches(text, sourceLang, r.value)
                          && forall j :: 0 <= j < k ==> !PhraseMatches(text, sourceLang, phrases[j])
    decreases phrases
  {
    if phrases == [] then None
    else if PhraseMatches(text, sourceLang, phrases[0]) then Some(phrases[0])
    else
      var r := FirstMatch(phrases[1..], text, sourceLang);
      if r.Some? then
        var k :| 0 <= k < |phrases[1..]| && phrases[1..][k] == r.value
                 && PhraseMatches(text, sourceLang, r.value)
                 && forall j :: 0 <= j < k ==> !PhraseMatches(text, sourceLang, phrases[1..][j]);
        assert phrases[k + 1] == r.value;
        r
      else
        assert forall i :: 1 <= i < |phrases| ==> phrases[i] == phrases[1..][i - 1];
        r
  }

  /** `translations[targetLang] || text`. */
  function EntryOr(p: Phrase, targetLang: string, text: string): string
  {
    if targetLang in p.translations && p.translations[targetLang] != "" then p.translations[targetLang]
    else text
  }

  /** `[${targetLang.toUpperCase()}] ${text}`. */
  function Tagged(text: string, targetLang: string): string
  {
    "[" + Upper(targetLang) + "] " + text
  }

  /** What the timer stores: the target entry of the first matching phrase (or
      the text itself where that entry is missing), and the tagged text when
      that is still empty. */
  function Translate(phrases: seq<Phrase>, text: string, sourceLang: string, targetLang: string): (r: string)
    ensures FirstMatch(phrases, text, sourceLang).None? ==> r == Tagged(text, targetLang)
    ensures text != "" && FirstMatch(phrases, text, sourceLang).Some? ==>
              r == EntryOr(FirstMatch(phrases, text, sourceLang).value, targetLang, text)
    ensures r != ""
  {
    var found := match FirstMatch(phrases, text, sourceLang)
                 case Some(p) => EntryOr(p, targetLang, text)
                 case None => "";
    if found == "" then Tagged(text, targetLang) else found
  }

  /** The scan with its early exit. */
  method MockTranslate(phrases: seq<Phrase>, text: string, sourceLang: string, targetLang: string)
    returns (translated: string)
    ensures translated == Translate(phrases, text, sourceLang, targetLang)
  {
    translated := "";
    var i := 0;
    while i < |phrases|
      invariant 0 <= i <= |phrases|
      invariant translated == ""
      invariant FirstMatch(phrases[i..], text, sourceLang) == FirstMatch(phrases, text, sourceLang)
    {
      var p := phrases[i];
      if PhraseMatches(text, sourceLang, p) {
        translated := EntryOr(p, targetLang, text);
        break;
      }
      assert phrases[i..][1..] == phrases[i + 1..];
      i := i + 1;
    }
    if translated == "" {
      translated := Tagged(text, targetLang);
    }
  }

  /** The phrase at `k` is the first match when it matches and no earlier one
      does. */
  lemma FirstMatchAt(phrases: seq<Phrase>, text: string, sourceLang: string, k: nat)
    requires k < |phrases| && PhraseMatches(text, sourceLang, phrases[k])
    requires forall j :: 0 <= j < k ==> !PhraseMatches(text, sourceLang, phrases[j])
    ensures FirstMatch(phrases, text, sourceLang) == Some(phrases[k])
  {
    var r := FirstMatch(phrases, text, sourceLang);
    var m :| 0 <= m < |phrases| && phrases[m] == r.value
             && PhraseMatches(text, sourceLang, r.value)
             && forall j :: 0 <= j < m ==> !PhraseMatches(text, sourceLang, phrases[j]);
    assert !(m < k) && !(k < m);
  }

  /** Once the first match is known, the result is its target entry. */
  lemma TranslateOfMatch(phrases: seq<Phrase>, text: string, sourceLang: string, targetLang: string, p: Phrase)
    requires text != "" && FirstMatch(phrases, text, sourceLang) == Some(p)
    ensures Translate(phrases, text, sourceLang, targetLang) == EntryOr(p, targetLang, text)
  {
  }

  /** A key typed in another case is found. */
  lemma TranslateHello()
    ensures Translate(CommonPhrases, "hello", "en", "ja") == "こんにちは (Konnichiwa)"
  {
    HelloMatchesFirstRow();
    FirstMatchAt(CommonPhrases, "hello", "en", 0);
    TranslateOfMatch(CommonPhrases, "hello", "en", "ja", CommonPhrases[0]);
    JapaneseHello();
  }

  lemma HelloMatchesFirstRow()
    ensures PhraseMatches("hello", "en", CommonPhrases[0])
  {
    assert Lower("hello") == Lower("Hello");
  }

  lemma JapaneseHello()
    ensures EntryOr(CommonPhrases[0], "ja", "hello") == "こんにちは (Konnichiwa)"
  {
  }

  /** A source-language entry is found and translated between two other
      languages. */
  lemma TranslateMerci()
    ensures Translate(CommonPhrases, "Merci", "fr", "de") == "Danke"
  {
    MerciMatchesSecondRow();
    FirstMatchAt(CommonPhrases, "Merci", "fr", 1);
    TranslateOfMatch(CommonPhrases, "Merci", "fr", "de", CommonPhrases[1]);
    GermanThanks();
  }

  lemma MerciMatchesSecondRow()
    ensures !PhraseMatches("Merci", "fr", CommonPhrases[0])
    ensures PhraseMatches("Merci", "fr", CommonPhrases[1])
  {
    assert Lower("Merci")[0] != Lower("Hello")[0];
    assert CommonPhrases[0].translations["fr"] == "Bonjour";
  }

  lemma GermanThanks()
    ensures EntryOr(CommonPhrases[1], "de", "Merci") == "Danke"
  {
  }

  /** The timer callback's captured inputs. */
  datatype PendingTranslation = PendingTranslation(text: string, sourceLang: string, targetLang: string)

  /** `commonPhrases[key][lang] || key`: the text a phrase button puts in the box. */
  function PhraseText(p: Phrase, lang: string): (r: string)
    ensures r != "" || p.key == ""
    ensures lang in p.translations && p.translations[lang] != "" ==> r == p.translations[lang]
  {
    EntryOr(p, lang, p.key)
  }

  function FindPhrase(phrases: seq<Phrase>, key: string): (r: Option<Phrase>)
    ensures r.Some? ==> r.value in phrases && r.value.key == key
    ensures r.None? ==> forall i :: 0 <= i < |phrases| ==> phrases[i].key != key
  {
    if phrases == [] then None
    else if phrases[0].key == key then Some(phrases[0])
    else FindPhrase(phrases[1..], key)
  }

  /** The translator card's state. `pending` holds the timers started and not
      yet fired, oldest first. */
  class LanguageTranslator {
    /** The component's phrase table. */
    const phrases: seq<Phrase>
    var sourceLang: string
    var targetLang: string
    var textToTranslate: string
    var translatedText: string
    var isTranslating: bool
    var commonPhrase: string
    var pending: seq<PendingTranslation>

    constructor (defaultSourceLang: string, defaultTargetLang: string)
      ensures sourceLang == defaultSourceLang && targetLang == defaultTargetLang
      ensures textToTranslate == "" && translatedText == "" && !isTranslating
      ensures commonPhrase == "" && pending == []
      ensures phrases == CommonPhrases
    {
      phrases := CommonPhrases;
      sourceLang := defaultSourceLang;
      targetLang := defaultTargetLang;
      textToTranslate := "";
      translatedText := "";
      isTranslating := false;
      commonPhrase := "";
      pending := [];
    }

    method SetTextToTranslate(text: string)
      modifies this
      ensures textToTranslate == text
      ensures sourceLang == old(sourceLang) && targetLang == old(targetLang)
      ensures translatedText == old(translatedText) && isTranslating == old(isTranslating)
      ensures commonPhrase == old(commonPhrase) && pending == old(pending)
    {
      textToTranslate := text;
    }

    method SetTargetLang(lang: string)
      modifies this
      ensures targetLang == lang
      ensures sourceLang == old(sourceLang) && textToTranslate == old(textToTranslate)
      ensures translatedText == old(translatedText) && isTranslating == old(isTranslating)
      ensures commonPhrase == old(commonPhrase) && pending == old(pending)
    {
      targetLang := lang;
    }

    /** `handleSwapLanguages`: the languages trade places and so do the input
        and the output. The source language changes when the two differ, so
        with a phrase selected the phrase effect re-runs: the input becomes the
        phrase's entry in the new source language and a translation of the
        swapped-in input is started. */
    method Swap()
      modifies this
      ensures sourceLang == old(targetLang) && targetLang == old(sourceLang)
      ensures translatedText == old(textToTranslate) && commonPhrase == old(commonPhrase)
      ensures var p := FindPhrase(phrases, commonPhrase);
              var reruns := old(sourceLang) != old(targetLang) && commonPhrase != "" && p.Some?;
              (reruns ==> textToTranslate == PhraseText(p.value, old(targetLang))
                          && (old(translatedText) != "" ==>
                                isTranslating
                                && pending == old(pending)
                                             + [PendingTranslation(old(translatedText), old(targetLang), old(sourceLang))])
                          && (old(translatedText) == "" ==>
                                isTranslating == old(isTranslating) && pending == old(pending)))
              && (!reruns ==> textToTranslate == old(translatedText)
                              && isTranslating == old(isTranslating) && pending == old(pending))
    {
      var changed := sourceLang != targetLang;
      sourceLang, targetLang := targetLang, sourceLang;
      textToTranslate, translatedText := translatedText, textToTranslate;
      var p := FindPhrase(phrases, commonPhrase);
      if changed && commonPhrase != "" && p.Some? {
        RunPhraseEffect(p.value);
      }
    }

    /** The click of `handleTranslate`: an empty input does nothing; otherwise
        the card shows it is busy and a timer is started on the current text and
        languages. */
    method StartTranslate()
      modifies this
      ensures old(textToTranslate) == "" ==> isTranslating == old(isTranslating) && pending == old(pending)
      ensures old(textToTranslate) != "" ==>
                isTranslating && pending == old(pending) + [PendingTranslation(textToTranslate, sourceLang, targetLang)]
      ensures sourceLang == old(sourceLang) && targetLang == old(targetLang)
      ensures textToTranslate == old(textToTranslate) && translatedText == old(translatedText)
      ensures commonPhrase == old(commonPhrase)
    {
      if textToTranslate == "" {
        return;
      }
      isTranslating := true;
      pending := pending + [PendingTranslation(textToTranslate, sourceLang, targetLang)];
    }

    /** The body of the phrase effect: `handleTranslate` from the closure,
        which still sees the input from before the rewrite, then the input
        becomes the phrase's entry in the source language. */
    method RunPhraseEffect(p: Phrase)
      modifies this
      ensures textToTranslate == PhraseText(p, sourceLang)
      ensures old(textToTranslate) != "" ==>
                isTranslating
                && pending == old(pending) + [PendingTranslation(old(textToTranslate), sourceLang, targetLang)]
      ensures old(textToTranslate) == "" ==> isTranslating == old(isTranslating) && pending == old(pending)
      ensures sourceLang == old(sourceLang) && targetLang == old(targetLang)
      ensures translatedText == old(translatedText) && commonPhrase == old(commonPhrase)
    {
      StartTranslate();
      textToTranslate := PhraseText(p, sourceLang);
    }

    /** The oldest timer fires: its translation is stored and the busy flag
        drops. */
    method FinishTranslate()
      requires pending != []
      modifies this
      ensures translatedText == Translate(phrases, old(pending)[0].text,
                                          old(pending)[0].sourceLang, old(pending)[0].targetLang)
      ensures !isTranslating && pending == old(pending)[1..]
      ensures sourceLang == old(sourceLang) && targetLang == old(targetLang)
      ensures textToTranslate == old(textToTranslate) && commonPhrase == old(commonPhrase)
    {
      var job := pending[0];
      var translated := MockTranslate(phrases, job.text, job.sourceLang, job.targetLang);
      translatedText := translated;
      isTranslating := false;
      pending := pending[1..];
    }

    /** A phrase button. The effect on `[commonPhrase, sourceLang]` runs only
        when the selection actually changes: it puts the phrase's
        source-language entry (or the key) in the input and calls
        `handleTranslate`, whose closure still holds the input from before
        that update. */
    method SelectPhrase(p: Phrase)
      requires p in phrases
      modifies this
      ensures old(commonPhrase) == p.key ==>
                textToTranslate == old(textToTranslate) && isTranslating == old(isTranslating)
                && pending == old(pending)
      ensures old(commonPhrase) != p.key ==> textToTranslate == PhraseText(p, sourceLang)
      ensures old(commonPhrase) != p.key && old(textToTranslate) != "" ==>
                isTranslating
                && pending == old(pending) + [PendingTranslation(old(textToTranslate), sourceLang, targetLang)]
      ensures old(commonPhrase) != p.key && old(textToTranslate) == "" ==>
                isTranslating == old(isTranslating) && pending == old(pending)
      ensures commonPhrase == p.key
      ensures sourceLang == old(sourceLang) && targetLang == old(targetLang)
      ensures translatedText == old(translatedText)
    {
      if commonPhrase != p.key {
        commonPhrase := p.key;
        RunPhraseEffect(p);
      }
    }

    /** The source selector. A new language with a phrase selected re-runs the
        effect: the input is rewritten in the new language and a translation of
        the input from before the rewrite is started. Choosing the current
        language changes nothing. */
    method SetSourceLang(lang: string)
      modifies this
      ensures sourceLang == lang
      ensures var p := FindPhrase(phrases, commonPhrase);
              var reruns := lang != old(sourceLang) && commonPhrase != "" && p.Some?;
              (reruns ==> textToTranslate == PhraseText(p.value, lang)
                          && (old(textToTranslate) != "" ==>
                                isTranslating
                                && pending == old(pending)
                                             + [PendingTranslation(old(textToTranslate), lang, targetLang)])
                          && (old(textToTranslate) == "" ==>
                                isTranslating == old(isTranslating) && pending == old(pending)))
              && (!reruns ==> textToTranslate == old(textToTranslate)
                              && isTranslating == old(isTranslating) && pending == old(pending))
      ensures targetLang == old(targetLang) && translatedText == old(translatedText)
      ensures commonPhrase == old(commonPhrase)
    {
      var changed := lang != sourceLang;
      sourceLang := lang;
      var p := FindPhrase(phrases, commonPhrase);
      if changed && commonPhrase != "" && p.Some? {
        RunPhraseEffect(p.value);
      }
    }
  }

  /** Swapping twice restores the languages. With no phrase selected, or with
      equal languages, the phrase effect stays idle and input, output and
      queue are restored as well. */
  method SwapTwice(t: LanguageTranslator)
    modifies t
    ensures t.sourceLang == old(t.sourceLang) && t.targetLang == old(t.targetLang)
    ensures old(t.commonPhrase) == "" || old(t.sourceLang) == old(t.targetLang) ==>
              t.textToTranslate == old(t.textToTranslate) && t.translatedText == old(t.translatedText)
              && t.pending == old(t.pending) && t.isTranslating == old(t.isTranslating)
  {
    t.Swap();
    t.Swap();
  }
}
