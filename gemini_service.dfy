/** The generation service: a pool of API keys handed out round-robin, a
    retry loop that walks the pool at most once per call and rotates on
    quota or permission failures, the mapping from raw failures to
    user-facing messages, and the request shaping done by the three
    generation operations. The remote model is not modelled: each call takes
    the per-key request as a function parameter. */
module GeminiService {
  import opened Strings
  import opened Types

  // ---------------------------------------------------------------------
  // The key pool's contents
  // ---------------------------------------------------------------------

  /** A candidate key must be longer than this to enter the pool. */
  const MinKeyLength: nat := 10

  /** One environment entry read at start-up: unset, or a string value. */
  datatype EnvValue = Unset | Text(text: string)

  predicate IsUsableKey(v: EnvValue) {
    v.Text? && |v.text| > MinKeyLength
  }

  /** The pool built from the candidate entries: the string entries longer
      than `MinKeyLength`, nothing else (no trimming is done here). */
  function AvailableApiKeys(candidates: seq<EnvValue>): (keys: seq<string>)
    ensures |keys| <= |candidates|
    ensures forall k :: k in keys ==> |k| > MinKeyLength && Text(k) in candidates
    ensures forall i :: 0 <= i < |candidates| && IsUsableKey(candidates[i]) ==> candidates[i].text in keys
  {
    if candidates == [] then []
    else
      var rest := AvailableApiKeys(candidates[1..]);
      assert forall k :: Text(k) in candidates[1..] ==> Text(k) in candidates;
      assert forall i :: 1 <= i < |candidates| ==> candidates[i] == candidates[1..][i - 1];
      if IsUsableKey(candidates[0]) then [candidates[0].text] + rest else rest
  }

  /** Filtering keeps the candidates' order: the pool built from two lists
      is the pool of the first followed by the pool of the second. */
  lemma {:induction false} AvailableApiKeysConcat(a: seq<EnvValue>, b: seq<EnvValue>)
    ensures AvailableApiKeys(a + b) == AvailableApiKeys(a) + AvailableApiKeys(b)
    decreases |a|
  {
    if a == [] {
      assert a + b == b;
    } else {
      assert (a + b)[1..] == a[1..] + b;
      AvailableApiKeysConcat(a[1..], b);
    }
  }

  // ---------------------------------------------------------------------
  // Failure classification and error messages
  // ---------------------------------------------------------------------

  const NoKeyMessage := "Chưa cấu hình API Key."
  /** The prefix the three fixed failure messages share. */
  const FixedPrefix := "Lỗi: "
  const BillingText := "API tạo ảnh yêu cầu tài khoản có thanh toán."
  const OverloadedText := "Server Google quá tải, vui lòng thử lại."
  const AllKeysLockedText := "Tất cả API Key đều bị khóa."
  const BillingMessage := FixedPrefix + BillingText
  const OverloadedMessage := FixedPrefix + OverloadedText
  const AllKeysLockedMessage := FixedPrefix + AllKeysLockedText

  /** The message for every failure no fixed message covers. */
  function GenericErrorMessage(context: string, detail: string): string {
    "Đã xảy ra lỗi khi " + context + ". Chi tiết: " + detail
  }

  /** A failure text that means "this key cannot serve now, try the next
      one": it contains, ignoring case, one of the rotation markers. */
  predicate IsRotatable(error: string) {
    var m := ToLower(error);
    Contains(m, "permission denied") || Contains(m, "suspended") || Contains(m, "resource_exhausted") ||
    Contains(m, "429") || Contains(m, "403")
  }

  /** A failure rotates exactly when its lower-cased text holds one of the
      five markers at some position. */
  lemma IsRotatableMeaning(error: string)
    ensures var m := ToLower(error);
            IsRotatable(error) <==>
              exists i :: OccursAt(m, "permission denied", i) || OccursAt(m, "suspended", i) ||
                          OccursAt(m, "resource_exhausted", i) || OccursAt(m, "429", i) || OccursAt(m, "403", i)
  {
    var m := ToLower(error);
    ContainsMeaning(m, "permission denied");
    ContainsMeaning(m, "suspended");
    ContainsMeaning(m, "resource_exhausted");
    ContainsMeaning(m, "429");
    ContainsMeaning(m, "403");
  }

  /** The user-facing message for a failure text; the fixed messages are
      tried in the order billing, overload, suspension. */
  function HandleGeminiError(error: string, context: string): (message: string)
    ensures message in {BillingMessage, OverloadedMessage, AllKeysLockedMessage} ||
            message == GenericErrorMessage(context, ToLower(error))
  {
    var m := ToLower(error);
    if Contains(m, "billed users") then BillingMessage
    else if Contains(m, "overloaded") then OverloadedMessage
    else if Contains(m, "suspended") then AllKeysLockedMessage
    else GenericErrorMessage(context, m)
  }

  /** Each of the four messages is produced exactly when its condition holds
      and every earlier one fails, so the message tells which rule fired. */
  lemma HandleGeminiErrorPriority(error: string, context: string)
    ensures var lower := ToLower(error);
            var billed := Contains(lower, "billed users");
            var overloaded := Contains(lower, "overloaded");
            var suspended := Contains(lower, "suspended");
            var message := HandleGeminiError(error, context);
            (message == BillingMessage <==> billed) &&
            (message == OverloadedMessage <==> !billed && overloaded) &&
            (message == AllKeysLockedMessage <==> !billed && !overloaded && suspended) &&
            (message == GenericErrorMessage(context, lower) <==> !billed && !overloaded && !suspended)
  {
    var g := GenericErrorMessage(context, ToLower(error));
    assert g[0] == 'Đ';
    assert BillingMessage[0] == 'L';
    assert OverloadedMessage[0] == 'L';
    assert AllKeysLockedMessage[0] == 'L';
    assert |FixedPrefix| == 5;
    assert BillingMessage[5] == BillingText[0] == 'A';
    assert OverloadedMessage[5] == OverloadedText[0] == 'S';
    assert AllKeysLockedMessage[5] == AllKeysLockedText[0] == 'T';
  }

  /** A failure that does not rotate never produces the "all keys locked"
      message: that one needs the marker "suspended", which rotates. */
  lemma TerminalFailureNeverReportsAllLocked(error: string, context: string)
    requires !IsRotatable(error)
    ensures HandleGeminiError(error, context) != AllKeysLockedMessage
  {
    HandleGeminiErrorPriority(error, context);
  }

  // ---------------------------------------------------------------------
  // The retry loop, as a specification function
  // ---------------------------------------------------------------------

  /** The pool position of the `j`-th attempt (counting from 0) of a call
      that starts with the cursor at `start`. */
  function KeyIndex(start: nat, j: nat, n: nat): (i: nat)
    requires n > 0
    ensures i < n
  {
    (start + j) % n
  }

  /** The outcome of the `j`-th attempt: the request sent with the key at
      position `KeyIndex(start, j, |keys|)`. */
  function Tried<T>(keys: seq<string>, start: nat, attempt: string -> Outcome<T>, j: nat): Outcome<T>
    requires |keys| > 0
  {
    attempt(keys[KeyIndex(start, j, |keys|)])
  }

  /** The failure text of an outcome, if it is a failure. */
  function ErrorOf<T>(o: Outcome<T>): Option<string> {
    match o
    case Ok(_) => None
    case Err(m) => Some(m)
  }

  predicate FailsRotatably<T>(o: Outcome<T>) {
    o.Err? && IsRotatable(o.msg)
  }

  /** Attempt `j` of a call fails in a way that rotates. */
  predicate RotatesAt<T>(keys: seq<string>, start: nat, attempt: string -> Outcome<T>, j: nat)
    requires |keys| > 0
  {
    FailsRotatably(Tried(keys, start, attempt, j))
  }

  /** `String(lastError)`: the text of the last failure, or "undefined"
      when no attempt was made. */
  function ErrorText(lastError: Option<string>): (text: string)
    ensures lastError.Some? ==> text == lastError.value
    ensures text == "undefined" <==> lastError.None? || lastError == Some("undefined")
  {
    match lastError
    case None => "undefined"
    case Some(m) => m
  }

  /** What a call returns and how many attempts it made. */
  datatype RetryRun<T> = RetryRun(result: Outcome<T>, attempts: nat)

  /** The retry loop from attempt `k` on, with `lastError` the failure seen
      so far: stop at the first success, stop at the first failure that does
      not rotate, otherwise move on; after the last key, report the last
      failure. */
  function Retry<T>(keys: seq<string>, start: nat, attempt: string -> Outcome<T>, context: string,
                    k: nat, lastError: Option<string>): (run: RetryRun<T>)
    requires k <= |keys|
    ensures k <= run.attempts <= |keys|
    ensures k < |keys| ==> k < run.attempts
    decreases |keys| - k
  {
    if k == |keys| then
      RetryRun(Err(HandleGeminiError(ErrorText(lastError), context)), k)
    else
      match Tried(keys, start, attempt, k)
      case Ok(v) => RetryRun(Ok(v), k + 1)
      case Err(m) =>
        if IsRotatable(m) then Retry(keys, start, attempt, context, k + 1, Some(m))
        else RetryRun(Err(HandleGeminiError(m, context)), k + 1)
  }

  /** One whole call, from the first attempt. */
  function RetryAll<T>(keys: seq<string>, start: nat, attempt: string -> Outcome<T>, context: string): (run: RetryRun<T>)
    ensures run.attempts <= |keys|
    ensures keys != [] ==> 1 <= run.attempts
  {
    Retry(keys, start, attempt, context, 0, None)
  }

  /** Attempts that fail rotatably are skipped over without changing the
      final outcome, except for the failure remembered as the last one. */
  lemma {:induction false} RetrySkipsRotatable<T>(keys: seq<string>, start: nat, attempt: string -> Outcome<T>,
                                                  context: string, i: nat, k: nat, lastError: Option<string>)
    requires i < k <= |keys|
    requires forall j :: i <= j < k ==> RotatesAt(keys, start, attempt, j)
    ensures Retry(keys, start, attempt, context, i, lastError) ==
            Retry(keys, start, attempt, context, k, ErrorOf(Tried(keys, start, attempt, k - 1)))
    decreases k - i
  {
    if i + 1 == k {
      assert RotatesAt(keys, start, attempt, i);
      RetryRotateStep(keys, start, attempt, context, i, lastError);
      SameAttempt(keys, start, attempt, i, k - 1);
    } else {
      RetrySkipsRotatable(keys, start, attempt, context, i, k - 1, lastError);
      assert RotatesAt(keys, start, attempt, k - 1);
      RetryRotateStep(keys, start, attempt, context, k - 1, ErrorOf(Tried(keys, start, attempt, k - 2)));
    }
  }

  /** The same attempt index names the same outcome. A solver hint only:
      it lets `RetrySkipsRotatable` equate `k - 1` with `i` without
      unfolding the retry loop. */
  lemma SameAttempt<T>(keys: seq<string>, start: nat, attempt: string -> Outcome<T>, i: nat, j: nat)
    requires |keys| > 0 && i == j
    ensures ErrorOf(Tried(keys, start, attempt, i)) == ErrorOf(Tried(keys, start, attempt, j))
  {
  }

  /** One attempt that fails rotatably moves the loop on, remembering that failure. */
  lemma RetryRotateStep<T>(keys: seq<string>, start: nat, attempt: string -> Outcome<T>, context: string,
                           i: nat, lastError: Option<string>)
    requires i < |keys| && FailsRotatably(Tried(keys, start, attempt, i))
    ensures Retry(keys, start, attempt, context, i, lastError) ==
            Retry(keys, start, attempt, context, i + 1, ErrorOf(Tried(keys, start, attempt, i)))
  {
  }

  /** Every call is explained by its attempts: all but the last failed
      rotatably, a success is the last attempt's answer, and a call that
      stops before the end of the pool stopped at a success or at a failure
      that does not rotate. */
  lemma {:induction false} RetryExplained<T>(keys: seq<string>, start: nat, attempt: string -> Outcome<T>,
                                             context: string, k: nat, lastError: Option<string>)
    requires k <= |keys|
    ensures var run := Retry(keys, start, attempt, context, k, lastError);
            (forall j :: k <= j < run.attempts - 1 ==> FailsRotatably(Tried(keys, start, attempt, j))) &&
            (run.result.Ok? ==> k < run.attempts && Tried(keys, start, attempt, run.attempts - 1) == Ok(run.result.value)) &&
            (k < run.attempts < |keys| ==> !FailsRotatably(Tried(keys, start, attempt, run.attempts - 1)))
    decreases |keys| - k
  {
    if k < |keys| {
      match Tried(keys, start, attempt, k)
      case Ok(v) =>
      case Err(m) =>
        if IsRotatable(m) {
          RetryExplained(keys, start, attempt, context, k + 1, Some(m));
        }
    }
  }

  /** A call whose first `k` attempts fail rotatably and whose next attempt
      succeeds returns that answer after exactly `k + 1` attempts; with
      `k == 0` the first success short-circuits the call. */
  lemma RetrySucceedsAt<T>(keys: seq<string>, start: nat, attempt: string -> Outcome<T>, context: string, k: nat, v: T)
    requires k < |keys|
    requires forall j :: 0 <= j < k ==> FailsRotatably(Tried(keys, start, attempt, j))
    requires Tried(keys, start, attempt, k) == Ok(v)
    ensures RetryAll(keys, start, attempt, context) == RetryRun(Ok(v), k + 1)
  {
    if k > 0 {
      RetrySkipsRotatable(keys, start, attempt, context, 0, k, None);
    }
  }

  /** A failure that does not rotate ends the call at once with its own
      message: attempt `k + 1` is the last one. */
  lemma RetryStopsAtTerminal<T>(keys: seq<string>, start: nat, attempt: string -> Outcome<T>, context: string, k: nat, m: string)
    requires k < |keys|
    requires forall j :: 0 <= j < k ==> FailsRotatably(Tried(keys, start, attempt, j))
    requires Tried(keys, start, attempt, k) == Err(m) && !IsRotatable(m)
    ensures RetryAll(keys, start, attempt, context) == RetryRun(Err(HandleGeminiError(m, context)), k + 1)
  {
    if k > 0 {
      RetrySkipsRotatable(keys, start, attempt, context, 0, k, None);
    }
  }

  /** When every key fails rotatably, each key is tried once and the call
      reports the failure of the last one. */
  lemma RetryExhausted<T>(keys: seq<string>, start: nat, attempt: string -> Outcome<T>, context: string)
    requires |keys| > 0
    requires forall j :: 0 <= j < |keys| ==> FailsRotatably(Tried(keys, start, attempt, j))
    ensures RetryAll(keys, start, attempt, context) ==
            RetryRun(Err(HandleGeminiError(ErrorText(ErrorOf(Tried(keys, start, attempt, |keys| - 1))), context)), |keys|)
  {
    RetrySkipsRotatable(keys, start, attempt, context, 0, |keys|, None);
  }

  /** With an empty pool no attempt is made and the message is built from
      the text "undefined". */
  lemma RetryEmptyPool<T>(start: nat, attempt: string -> Outcome<T>, context: string)
    ensures RetryAll([], start, attempt, context) ==
            RetryRun(Err(GenericErrorMessage(context, "undefined")), 0)
  {
    var u := "undefined";
    assert ToLower(u) == u;
    ContainsMeaning(u, "billed users");
    ContainsMeaning(u, "overloaded");
    ContainsMeaning(u, "suspended");
    // "undefined" is as long as "suspended", so only position 0 could hold it.
    assert u[0..9][0] != 's';
    assert HandleGeminiError(u, context) == GenericErrorMessage(context, u);
  }

  /** When every key fails with a suspension notice, the user is told that
      all keys are locked. */
  lemma RetryAllSuspended<T>(keys: seq<string>, start: nat, attempt: string -> Outcome<T>, context: string)
    requires |keys| > 0
    requires forall j :: 0 <= j < |keys| ==>
               var o := Tried(keys, start, attempt, j);
               o.Err? && Contains(ToLower(o.msg), "suspended") &&
               !Contains(ToLower(o.msg), "billed users") && !Contains(ToLower(o.msg), "overloaded")
    ensures RetryAll(keys, start, attempt, context).result == Err(AllKeysLockedMessage)
  {
    RetryExhausted(keys, start, attempt, context);
    HandleGeminiErrorPriority(ErrorText(ErrorOf(Tried(keys, start, attempt, |keys| - 1))), context);
  }

  /** Reduction of a position below `2 * n` modulo `n`. */
  lemma ModBelowTwice(x: nat, n: nat)
    requires 0 < n && x < 2 * n
    ensures x % n == if x < n then x else x - n
  {
    if x < n {
      assert x == 0 * n + x;
    } else {
      assert x == 1 * n + (x - n);
    }
  }

  /** Within one call starting from a valid cursor, no pool position is
      used twice. */
  lemma TriedIndicesDistinct(start: nat, n: nat, i: nat, j: nat)
    requires start < n && i < j < n
    ensures KeyIndex(start, i, n) != KeyIndex(start, j, n)
  {
    ModBelowTwice(start + i, n);
    ModBelowTwice(start + j, n);
  }

  /** The first attempt uses the key under the cursor. */
  lemma KeyIndexStart(start: nat, n: nat)
    requires start < n
    ensures KeyIndex(start, 0, n) == start
  {
    ModBelowTwice(start, n);
  }

  /** Advancing the cursor one place after attempt `i` points it at the key
      of attempt `i + 1`. */
  lemma KeyIndexStep(start: nat, i: nat, n: nat)
    requires start < n && i < n
    ensures KeyIndex(KeyIndex(start, i, n), 1, n) == KeyIndex(start, i + 1, n)
  {
    ModBelowTwice(start + i, n);
    ModBelowTwice(start + i + 1, n);
    ModBelowTwice(KeyIndex(start, i, n) + 1, n);
  }

  /** A call that tried every key leaves the cursor where it found it. */
  lemma FullRotationReturnsToStart(start: nat, n: nat)
    requires start < n
    ensures KeyIndex(start, n, n) == start
  {
    ModBelowTwice(start + n, n);
  }

  // ---------------------------------------------------------------------
  // Request shaping of the generation operations
  // ---------------------------------------------------------------------

  /** `items.slice(0, end)`: the prefix of length `end`, capped at the
      length; a negative `end` counts back from the end. */
  function SliceFromZero<X>(items: seq<X>, end: int): (r: seq<X>)
    ensures |r| <= |items| && r == items[..|r|]
    ensures end >= 0 ==> |r| == (if end < |items| then end else |items|)
    ensures end < 0 ==> |r| == (if |items| + end > 0 then |items| + end else 0)
  {
    if end >= 0 then (if end < |items| then items[..end] else items)
    else (if |items| + end > 0 then items[..|items| + end] else [])
  }

  /** `Math.ceil(duration / 8)`: the number of eight-second scenes needed to
      fill `duration` seconds. */
  function ExpectedScenes(duration: int): (n: int)
    ensures 8 * (n - 1) < duration <= 8 * n
  {
    if duration % 8 == 0 then duration / 8 else duration / 8 + 1
  }

  /** The smallest scene count that covers the duration is unique, so the
      two examples follow from the contract alone. */
  lemma ExpectedScenesExamples()
    ensures ExpectedScenes(150) == 19 && ExpectedScenes(8) == 1 && ExpectedScenes(0) == 0
  {
  }

  /** One line of the character list sent with a script request. */
  function CharacterLine(c: Character): string {
    "- " + c.name + ": " + c.prompt
  }

  function CharacterLines(cs: seq<Character>): (lines: seq<string>)
    ensures |lines| == |cs|
    ensures forall i :: 0 <= i < |cs| ==> lines[i] == CharacterLine(cs[i])
  {
    seq(|cs|, i requires 0 <= i < |cs| => CharacterLine(cs[i]))
  }

  /** The character list of a script request: one line per character, in
      roster order, separated by line breaks. */
  function CharDesc(cs: seq<Character>): (d: string)
    ensures d == "" <==> cs == []
  {
    Join(CharacterLines(cs), "\n")
  }

  /** Adding a character to the roster adds one line at the end of its
      description. */
  lemma CharDescAppend(cs: seq<Character>, c: Character)
    ensures CharDesc([]) == ""
    ensures CharDesc([c]) == CharacterLine(c)
    ensures cs != [] ==> CharDesc(cs + [c]) == CharDesc(cs) + "\n" + CharacterLine(c)
  {
    if cs != [] {
      assert CharacterLines(cs + [c]) == CharacterLines(cs) + CharacterLines([c]);
      JoinAppend(CharacterLines(cs), CharacterLines([c]), "\n");
    }
  }

  /** What the story prompt is built from. */
  datatype StoryRequest = StoryRequest(idea: string, style: string, count: int)
  /** What the character prompt is built from (the visual style is not used). */
  datatype CharacterRequest = CharacterRequest(title: string, summary: string, numCharacters: int)
  /** What the script prompt is built from. */
  datatype ScriptRequest = ScriptRequest(duration: int, expectedScenes: int, title: string, summary: string,
                                         charDesc: string, narrationLanguage: string)

  const StoryContext := "tạo ý tưởng"
  const CharacterContext := "tạo nhân vật"
  const ScriptContext := "tạo kịch bản"

  /** The per-key work of a story request: send it, keep at most `count` items. */
  function StoryAttempt(req: StoryRequest, send: (string, StoryRequest) -> Outcome<seq<StoryDraft>>): (attempt: string -> Outcome<seq<StoryDraft>>)
    ensures forall key :: attempt(key).Err? <==> send(key, req).Err?
    ensures forall key :: send(key, req).Err? ==> attempt(key) == send(key, req)
    ensures forall key :: send(key, req).Ok? ==> attempt(key) == Ok(SliceFromZero(send(key, req).value, req.count))
  {
    key =>
      match send(key, req)
      case Ok(items) => Ok(SliceFromZero(items, req.count))
      case Err(m) => Err(m)
  }

  function CharacterAttempt(req: CharacterRequest, send: (string, CharacterRequest) -> Outcome<seq<CharacterDraft>>): string -> Outcome<seq<CharacterDraft>> {
    key => send(key, req)
  }

  function ScriptAttempt(req: ScriptRequest, send: (string, ScriptRequest) -> Outcome<Script>): string -> Outcome<Script> {
    key => send(key, req)
  }

  /** The script request for a story, a roster and a duration. */
  function ScriptRequestFor(story: Story, characters: seq<Character>, duration: int, narrationLanguage: string): (req: ScriptRequest)
    ensures 8 * (req.expectedScenes - 1) < duration <= 8 * req.expectedScenes
    ensures req.charDesc == CharDesc(characters)
  {
    ScriptRequest(duration, ExpectedScenes(duration), story.title, story.summary, CharDesc(characters), narrationLanguage)
  }

  // ---------------------------------------------------------------------
  // The pool object
  // ---------------------------------------------------------------------

  /** The module-level key list and its round-robin cursor. */
  class KeyPool {
    /** The keys, fixed when the pool is built. */
    const keys: seq<string>
    /** The position of the next key to hand out. */
    var cursor: nat

    ghost predicate Valid()
      reads this
    {
      cursor < |keys| || cursor == 0
    }

    /** Builds the pool from the candidate entries, cursor at the first key. */
    constructor (candidates: seq<EnvValue>)
      ensures Valid()
      ensures keys == AvailableApiKeys(candidates) && cursor == 0
    {
      keys := AvailableApiKeys(candidates);
      cursor := 0;
    }

    /** Hands out the key under the cursor and advances the cursor one
        place around the pool; fails on an empty pool. */
    method NextKey() returns (key: Outcome<string>)
      requires Valid()
      modifies this
      ensures Valid()
      ensures keys == [] ==> key == Err(NoKeyMessage) && cursor == old(cursor)
      ensures keys != [] ==> key == Ok(keys[old(cursor)]) && cursor == KeyIndex(old(cursor), 1, |keys|)
    {
      if |keys| == 0 {
        return Err(NoKeyMessage);
      }
      key := Ok(keys[cursor]);
      cursor := (cursor + 1) % |keys|;
    }

    /** Runs `attempt` with successive keys, at most once per key, as
        `RetryAll` describes. `used` lists the pool positions handed out, in
        order; the cursor ends just past the last of them. */
    method CallWithRetry<T>(attempt: string -> Outcome<T>, context: string) returns (r: Outcome<T>, ghost used: seq<nat>)
      requires Valid()
      modifies this
      ensures Valid()
      ensures r == RetryAll(keys, old(cursor), attempt, context).result
      ensures |used| == RetryAll(keys, old(cursor), attempt, context).attempts
      ensures keys != [] ==> forall j :: 0 <= j < |used| ==> used[j] == KeyIndex(old(cursor), j, |keys|)
      ensures keys != [] ==> cursor == KeyIndex(old(cursor), |used|, |keys|)
      ensures keys == [] ==> cursor == old(cursor)
    {
      ghost var start := cursor;
      if keys != [] {
        KeyIndexStart(start, |keys|);
      }
      used := [];
      var lastError: Option<string> := None;
      var i := 0;
      while i < |keys|
        invariant 0 <= i <= |keys|
        invariant Valid()
        invariant |used| == i
        invariant keys != [] ==> forall j :: 0 <= j < i ==> used[j] == KeyIndex(start, j, |keys|)
        invariant keys != [] ==> cursor == KeyIndex(start, i, |keys|)
        invariant keys == [] ==> cursor == start
        invariant RetryAll(keys, start, attempt, context) == Retry(keys, start, attempt, context, i, lastError)
      {
        used := used + [cursor];
        var next := NextKey();
        KeyIndexStep(start, i, |keys|);
        var outcome := attempt(next.value);
        match outcome {
          case Ok(v) =>
            r := Ok(v);
            return;
          case Err(m) =>
            lastError := Some(m);
            if !IsRotatable(m) {
              r := Err(HandleGeminiError(m, context));
              return;
            }
        }
        i := i + 1;
      }
      r := Err(HandleGeminiError(ErrorText(lastError), context));
    }

    /** Asks for story ideas; a success holds at most `count` of them, the
        first ones of the answer. */
    method GenerateStoryIdeas(idea: string, style: string, count: int,
                              send: (string, StoryRequest) -> Outcome<seq<StoryDraft>>)
      returns (r: Outcome<seq<StoryDraft>>)
      requires Valid()
      modifies this
      ensures Valid()
      ensures r == RetryAll(keys, old(cursor), StoryAttempt(StoryRequest(idea, style, count), send), StoryContext).result
      ensures r.Ok? && count >= 0 ==> |r.value| <= count
      ensures r.Ok? ==> exists j :: 0 <= j < |keys| && send(keys[j], StoryRequest(idea, style, count)).Ok? &&
                          r.value == SliceFromZero(send(keys[j], StoryRequest(idea, style, count)).value, count)
      ensures keys != [] ==>
                cursor == KeyIndex(old(cursor), RetryAll(keys, old(cursor), StoryAttempt(StoryRequest(idea, style, count), send),
                                                         StoryContext).attempts, |keys|)
      ensures keys == [] ==> cursor == old(cursor)
    {
      ghost var start := cursor;
      var attempt := StoryAttempt(StoryRequest(idea, style, count), send);
      ghost var used;
      r, used := CallWithRetry(attempt, StoryContext);
      if r.Ok? {
        RetryExplained(keys, start, attempt, StoryContext, 0, None);
        var key := keys[KeyIndex(start, |used| - 1, |keys|)];
        var req := StoryRequest(idea, style, count);
        assert attempt(key) == Ok(r.value);
        assert send(key, req).Ok?;
      }
    }

    /** Asks for the characters of a story. */
    method GenerateCharacterDetails(story: Story, numCharacters: int, style: string,
                                    send: (string, CharacterRequest) -> Outcome<seq<CharacterDraft>>)
      returns (r: Outcome<seq<CharacterDraft>>)
      requires Valid()
      modifies this
      ensures Valid()
      ensures r == RetryAll(keys, old(cursor),
                            CharacterAttempt(CharacterRequest(story.title, story.summary, numCharacters), send),
                            CharacterContext).result
      ensures keys != [] ==>
                cursor == KeyIndex(old(cursor), RetryAll(keys, old(cursor),
                                                         CharacterAttempt(CharacterRequest(story.title, story.summary, numCharacters), send),
                                                         CharacterContext).attempts, |keys|)
      ensures keys == [] ==> cursor == old(cursor)
    {
      ghost var used;
      r, used := CallWithRetry(CharacterAttempt(CharacterRequest(story.title, story.summary, numCharacters), send), CharacterContext);
    }

    /** Asks for a script whose scene count covers `duration` seconds in
        eight-second scenes. */
    method GenerateScript(story: Story, characters: seq<Character>, duration: int, narrationLanguage: string,
                          send: (string, ScriptRequest) -> Outcome<Script>)
      returns (r: Outcome<Script>)
      requires Valid()
      modifies this
      ensures Valid()
      ensures r == RetryAll(keys, old(cursor),
                            ScriptAttempt(ScriptRequestFor(story, characters, duration, narrationLanguage), send),
                            ScriptContext).result
      ensures keys != [] ==>
                cursor == KeyIndex(old(cursor), RetryAll(keys, old(cursor),
                                                         ScriptAttempt(ScriptRequestFor(story, characters, duration, narrationLanguage), send),
                                                         ScriptContext).attempts, |keys|)
      ensures keys == [] ==> cursor == old(cursor)
    {
      ghost var used;
      r, used := CallWithRetry(ScriptAttempt(ScriptRequestFor(story, characters, duration, narrationLanguage), send), ScriptContext);
    }
  }
}
