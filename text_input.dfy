/** The text description input: the suggestion lists, the submit guard and
    the `text` / `showSuggestions` state with its handlers. */
module TextInput {
  import opened Text

  const EnglishSuggestions: seq<string> := [
    "I want a 3-bedroom house with a large living room and modern kitchen",
    "Design a cozy 2BHK apartment with balcony and study room",
    "Create a villa with swimming pool, garden, and 4 bedrooms",
    "I need a small studio apartment with efficient space utilization",
    "Design a duplex house with parking and terrace garden",
    "Create an open-plan living space with kitchen island"
  ]

  const HindiSuggestions: seq<string> := [
    "मुझे एक बड़े लिविंग रूम और आधुनिक रसोई के साथ 3 बेडरूम का घर चाहिए",
    "बालकनी और अध्ययन कक्ष के साथ एक आरामदायक 2BHK अपार्टमेंट डिज़ाइन करें",
    "स्विमिंग पूल, बगीचा और 4 बेडरूम के साथ एक विला बनाएं",
    "मुझे कुशल स्थान उपयोग के साथ एक छोटा स्टूडियो अपार्टमेंट चाहिए",
    "पार्किंग और छत बगीचे के साथ एक डुप्लेक्स घर डिज़ाइन करें",
    "किचन आइलैंड के साथ एक खुला लिविंग स्पेस बनाएं"
  ]

  /** `suggestions[selectedLanguage] || suggestions.en`: the two known codes
      select their own list, every other code falls back to English. */
  function CurrentSuggestions(language: string): (r: seq<string>)
    ensures |r| == 6
    ensures language == "hi" ==> r == HindiSuggestions
    ensures language != "hi" ==> r == EnglishSuggestions
  {
    match language
    case "en" => EnglishSuggestions
    case "hi" => HindiSuggestions
    case _ => EnglishSuggestions
  }

  /** `currentSuggestions.slice(0, 4)`: the first four of the list. */
  function ShownSuggestions(language: string): (r: seq<string>)
    ensures |r| == 4
    ensures r == CurrentSuggestions(language)[..4]
  {
    var all := CurrentSuggestions(language);
    all[..if |all| < 4 then |all| else 4]
  }

  /** A submitted description is never blank and never has whitespace at
      either end. */
  predicate IsSubmittable(s: string) {
    s != [] && Trim(s) == s
  }

  /** What a submit does with `text`: `Trim(text)` is handed on when it is
      not blank, and then `text` is cleared. */
  function Submission(text: string): (r: string)
    ensures r == [] <==> AllWhitespace(text)
    ensures r != [] ==> IsSubmittable(r)
  {
    TrimEmptyIffBlank(text);
    TrimIdempotent(text);
    Trim(text)
  }

  /** The component's state. `submitted` lists the arguments of the calls to
      `onTextSubmit`, oldest first. */
  class TextInputState {
    var text: string
    var showSuggestions: bool
    var submitted: seq<string>

    ghost predicate Valid()
      reads this
    {
      forall i :: 0 <= i < |submitted| ==> IsSubmittable(submitted[i])
    }

    /** `useState('')` and `useState(true)`. */
    constructor ()
      ensures Valid() && text == "" && showSuggestions && submitted == []
    {
      text := "";
      showSuggestions := true;
      submitted := [];
    }

    /** The submit button's `disabled={!text.trim()}`, negated. */
    function SubmitEnabled(): (enabled: bool)
      reads this
      ensures enabled <==> !AllWhitespace(text)
    {
      Submission(text) != []
    }

    /** `handleSubmit`: hands on the trimmed text and clears it, or does nothing
        when the text is blank. */
    method HandleSubmit()
      requires Valid()
      modifies this
      ensures Valid() && showSuggestions == old(showSuggestions)
      ensures !AllWhitespace(old(text)) ==> text == "" && submitted == old(submitted) + [Trim(old(text))]
      ensures AllWhitespace(old(text)) ==> text == old(text) && submitted == old(submitted)
    {
      var trimmed := Submission(text);
      if trimmed != [] {
        submitted := submitted + [trimmed];
        text := "";
      }
    }

    /** `handleKeyPress`: Enter without Shift submits (and the default newline
        is suppressed); any other key, and Shift+Enter, leaves the state alone. */
    method HandleKeyPress(key: string, shiftKey: bool) returns (preventDefault: bool)
      requires Valid()
      modifies this
      ensures Valid() && showSuggestions == old(showSuggestions)
      ensures preventDefault <==> key == "Enter" && !shiftKey
      ensures preventDefault && !AllWhitespace(old(text)) ==>
        text == "" && submitted == old(submitted) + [Trim(old(text))]
      ensures !preventDefault || AllWhitespace(old(text)) ==>
        text == old(text) && submitted == old(submitted)
    {
      preventDefault := key == "Enter" && !shiftKey;
      if preventDefault {
        HandleSubmit();
      }
    }

    /** The textarea's `onChange`. */
    method HandleChange(value: string)
      requires Valid()
      modifies this
      ensures Valid() && text == value
      ensures showSuggestions == old(showSuggestions) && submitted == old(submitted)
    {
      text := value;
    }

    /** `handleSuggestionClick`: the suggestion becomes the text and the
        suggestions are hidden; nothing is submitted. */
    method HandleSuggestionClick(suggestion: string)
      requires Valid()
      modifies this
      ensures Valid() && text == suggestion && !showSuggestions && submitted == old(submitted)
    {
      text := suggestion;
      showSuggestions := false;
    }

    /** The textarea's `onFocus` hides the suggestions. */
    method HandleFocus()
      requires Valid()
      modifies this
      ensures Valid() && !showSuggestions
      ensures text == old(text) && submitted == old(submitted)
    {
      showSuggestions := false;
    }

    /** The "Show suggestions" button flips the flag. */
    method ToggleSuggestions()
      requires Valid()
      modifies this
      ensures Valid() && showSuggestions == !old(showSuggestions)
      ensures text == old(text) && submitted == old(submitted)
    {
      showSuggestions := !showSuggestions;
    }
  }
}
