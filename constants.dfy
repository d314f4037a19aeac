/**
 * The application's fixed data: request configuration, storage keys,
 * defaults, the 3x3 tone catalog and the user-facing messages.
 */
module Constants {
  import opened Wrappers

  // Request configuration
  const MISTRAL_BASE_URL := "https://api.mistral.ai/v1/chat/completions"
  const REQUEST_TIMEOUT_MS := 30000
  const MAX_TOKENS := 1000
  const TEMPERATURE: real := 0.7

  // Keys under which preferences are kept in the browser's local storage
  const STORAGE_API_KEY := "mistral_api_key"
  const STORAGE_LAST_TONE := "last_selected_tone"
  const STORAGE_USER_PREFERENCES := "user_preferences"

  // Defaults
  const DEFAULT_TEXT := "Hey there, awesome folks!\n\nGuess what's about to make a splash? Project Gemini, our super cool new dev adventure, is ready to take off! So, grab some snacks, 'cause we're just 30 days away from the big party!"
  const DEFAULT_TONE := "casual"
  const DEFAULT_MODEL := "mistral-small-latest"

  /** One entry of the tone palette. */
  datatype ToneOption = ToneOption(id: string, displayLabel: string, description: Option<string>, position: string)

  /** The palette as laid out on screen: three rows of three tones. */
  const TONE_MATRIX: seq<seq<ToneOption>> := [
    [
      ToneOption("professional", "Professional", Some("Formal business communication"), "top-left"),
      ToneOption("serious", "Serious", Some("Grave and important tone"), "top-center"),
      ToneOption("formal", "Formal", Some("Official and structured"), "top-right")
    ],
    [
      ToneOption("friendly", "Friendly", Some("Warm and approachable"), "middle-left"),
      ToneOption("casual", "Casual", Some("Relaxed and informal"), "middle-center"),
      ToneOption("playful", "Playful", Some("Fun and lighthearted"), "middle-right")
    ],
    [
      ToneOption("creative", "Creative", Some("Artistic and imaginative"), "bottom-left"),
      ToneOption("enthusiastic", "Enthusiastic", Some("Energetic and excited"), "bottom-center"),
      ToneOption("confident", "Confident", Some("Assertive and sure"), "bottom-right")
    ]
  ]

  /** `Array.prototype.flat` on a sequence of rows: the rows, concatenated in order. */
  function Flatten<T>(rows: seq<seq<T>>): (r: seq<T>)
  {
    if rows == [] then [] else rows[0] + Flatten(rows[1..])
  }

  /** Flattening `n` rows of a common width `w` gives `n * w` elements. */
  lemma {:induction false} FlattenLength<T>(rows: seq<seq<T>>, w: nat)
    requires forall k :: 0 <= k < |rows| ==> |rows[k]| == w
    ensures |Flatten(rows)| == |rows| * w
  {
    if rows != [] {
      FlattenLength(rows[1..], w);
      assert |rows| * w == (|rows| - 1) * w + w;
    }
  }

  /** Flattening rows of a common width `w` puts row `i`, column `j` at index `i * w + j`. */
  lemma {:induction false} FlattenAt<T>(rows: seq<seq<T>>, w: nat, i: nat, j: nat)
    requires forall k :: 0 <= k < |rows| ==> |rows[k]| == w
    requires i < |rows| && j < w
    ensures i * w + j < |Flatten(rows)| && Flatten(rows)[i * w + j] == rows[i][j]
    decreases i
  {
    assert Flatten(rows) == rows[0] + Flatten(rows[1..]);
    if i == 0 {
      assert i * w + j == j;
    } else {
      FlattenAt(rows[1..], w, i - 1, j);
      MulStep(i, w);
    }
  }

  lemma MulStep(i: nat, w: nat)
    requires i > 0
    ensures i * w == (i - 1) * w + w
  {
  }

  /** Every tone of the palette, row by row. */
  const ALL_TONES: seq<ToneOption> := Flatten(TONE_MATRIX)

  /** The catalog is a 3x3 grid whose row-major flattening is `ALL_TONES`. */
  lemma ToneMatrixShape()
    ensures |TONE_MATRIX| == 3
    ensures forall i :: 0 <= i < 3 ==> |TONE_MATRIX[i]| == 3
    ensures |ALL_TONES| == 9
    ensures forall i, j :: 0 <= i < 3 && 0 <= j < 3 ==> ALL_TONES[3 * i + j] == TONE_MATRIX[i][j]
  {
    FlattenLength(TONE_MATRIX, 3);
    forall i, j | 0 <= i < 3 && 0 <= j < 3
      ensures ALL_TONES[3 * i + j] == TONE_MATRIX[i][j]
    {
      FlattenAt(TONE_MATRIX, 3, i, j);
      assert 3 * i + j == i * 3 + j;
    }
  }

  /** `id` names an entry of the catalog. */
  predicate IsCatalogTone(id: string)
  {
    exists i :: 0 <= i < |ALL_TONES| && ALL_TONES[i].id == id
  }

  /** `ALL_TONES` is the three rows of the grid, one after another. */
  lemma AllTonesRows()
    ensures ALL_TONES == TONE_MATRIX[0] + TONE_MATRIX[1] + TONE_MATRIX[2]
  {
    var m := TONE_MATRIX;
    assert Flatten(m[1..][1..][1..]) == [];
    assert Flatten(m[1..][1..]) == m[2];
    assert Flatten(m[1..]) == m[1] + m[2];
  }

  /** No two catalog entries share an identifier. */
  lemma ToneIdsDistinct()
    ensures forall i, j :: 0 <= i < j < |ALL_TONES| ==> ALL_TONES[i].id != ALL_TONES[j].id
  {
    AllTonesRows();
    var ids := seq(|ALL_TONES|, k requires 0 <= k < |ALL_TONES| => ALL_TONES[k].id);
    assert ids == ["professional", "serious", "formal", "friendly", "casual", "playful", "creative", "enthusiastic", "confident"];
    // Each identifier differs from every other in its length or its first letter.
    forall i, j | 0 <= i < j < |ALL_TONES| ensures ALL_TONES[i].id != ALL_TONES[j].id {
      assert ids[i] == ALL_TONES[i].id && ids[j] == ALL_TONES[j].id;
      assert |ids[i]| != |ids[j]| || ids[i][0] != ids[j][0];
    }
  }

  /** No two catalog entries share a screen position. */
  lemma TonePositionsDistinct()
    ensures forall i, j :: 0 <= i < j < |ALL_TONES| ==> ALL_TONES[i].position != ALL_TONES[j].position
  {
    AllTonesRows();
    var positions := seq(|ALL_TONES|, k requires 0 <= k < |ALL_TONES| => ALL_TONES[k].position);
    assert positions == ["top-left", "top-center", "top-right", "middle-left", "middle-center", "middle-right",
                         "bottom-left", "bottom-center", "bottom-right"];
    // Each position differs from every other in its length or its first letter.
    forall i, j | 0 <= i < j < |ALL_TONES| ensures ALL_TONES[i].position != ALL_TONES[j].position {
      assert positions[i] == ALL_TONES[i].position && positions[j] == ALL_TONES[j].position;
      assert |positions[i]| != |positions[j]| || positions[i][0] != positions[j][0];
    }
  }

  /** The default tone is the centre cell of the grid. */
  lemma DefaultToneInCatalog()
    ensures TONE_MATRIX[1][1].id == DEFAULT_TONE && TONE_MATRIX[1][1].position == "middle-center"
    ensures ALL_TONES[4].id == DEFAULT_TONE
    ensures IsCatalogTone(DEFAULT_TONE)
  {
    ToneMatrixShape();
    assert ALL_TONES[3 * 1 + 1] == TONE_MATRIX[1][1];
  }

  // Error messages
  const NO_API_KEY := "API key is required to use this service"
  const NO_TEXT := "Please enter some text to adjust"
  const API_REQUEST_FAILED := "Failed to adjust tone. Please try again."
  const INVALID_RESPONSE := "Received invalid response from the AI service"
  const NETWORK_ERROR := "Network error. Please check your connection."
  const TIMEOUT_ERROR := "Request timed out. Please try again."

  const ERROR_MESSAGES: seq<string> :=
    [NO_API_KEY, NO_TEXT, API_REQUEST_FAILED, INVALID_RESPONSE, NETWORK_ERROR, TIMEOUT_ERROR]

  /** The six error messages are non-empty and pairwise different, so each
      failure class can be told apart by its message. */
  lemma ErrorMessagesDistinct()
    ensures forall i :: 0 <= i < |ERROR_MESSAGES| ==> ERROR_MESSAGES[i] != []
    ensures forall i, j :: 0 <= i < j < |ERROR_MESSAGES| ==> ERROR_MESSAGES[i] != ERROR_MESSAGES[j]
  {
  }

  // Success messages
  const API_KEY_SAVED := "API key saved successfully"
  const TEXT_RESET := "Text has been reset to original"

  /** The success message for a tone adjustment, naming the tone. */
  function ToneAdjusted(tone: string): (m: string)
    ensures |m| == |tone| + 32
    ensures m[..26] == "Text has been adjusted to " && m[26..26 + |tone|] == tone && m[26 + |tone|..] == " tone."
  {
    "Text has been adjusted to " + tone + " tone."
  }

  /** Different tones give different success messages. */
  lemma ToneAdjustedInjective(a: string, b: string)
    requires ToneAdjusted(a) == ToneAdjusted(b)
    ensures a == b
  {
    assert a == ToneAdjusted(a)[26..26 + |a|];
  }
}
