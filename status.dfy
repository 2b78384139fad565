/**
 * Status normaliser (internal/status/validator.go): a fixed alias table maps
 * the trimmed, lower-cased input onto one of five canonical lifecycle states.
 */
module Status {
  import opened Text
  import opened Wrappers

  const Pending: string := "pending"
  const Started: string := "started"
  const Completed: string := "completed"
  const Failed: string := "failed"
  const Aborted: string := "aborted"

  /** The five canonical lifecycle states. */
  predicate IsCanonical(s: string) {
    s == Pending || s == Started || s == Completed || s == Failed || s == Aborted
  }

  /** `statusAliases`: canonical values map to themselves, aliases to their state. */
  function Alias(key: string): Option<string> {
    match key
    case "pending" => Some(Pending)
    case "started" => Some(Started)
    case "completed" => Some(Completed)
    case "failed" => Some(Failed)
    case "aborted" => Some(Aborted)
    case "queued" => Some(Pending)
    case "scheduled" => Some(Pending)
    case "in_progress" => Some(Started)
    case "init" => Some(Started)
    case "building" => Some(Started)
    case "deploying" => Some(Started)
    case "success" => Some(Completed)
    case "complete" => Some(Completed)
    case "finished" => Some(Completed)
    case "built" => Some(Completed)
    case "deployed" => Some(Completed)
    case "fail" => Some(Failed)
    case "failure" => Some(Failed)
    case "error" => Some(Failed)
    case "abort" => Some(Aborted)
    case "cancelled" => Some(Aborted)
    case "cancel" => Some(Aborted)
    case "skipped" => Some(Aborted)
    case _ => None
  }

  /** The lookup key: `strings.ToLower(strings.TrimSpace(status))`. */
  function Key(status: string): string {
    ToLower(TrimSpace(status))
  }

  datatype Normalized = Normalized(canonical: string, wasNormalized: bool)

  /** `IsValid`: the lookup key is in the alias table. */
  predicate IsValid(status: string) {
    Alias(Key(status)).Some?
  }

  /** `Normalize`: the table's canonical value, flagged when it differs from the key;
      unknown input comes back exactly as given. */
  function Normalize(status: string): (r: Normalized)
    ensures IsValid(status) ==> IsCanonical(r.canonical)
    ensures IsValid(status) ==> Alias(Key(status)) == Some(r.canonical)
    ensures IsValid(status) ==> (r.wasNormalized <==> Key(status) != r.canonical)
    ensures !IsValid(status) ==> r == Normalized(status, false)
    ensures r.wasNormalized ==> IsValid(status) && IsCanonical(r.canonical)
  {
    AliasesAreCanonical();
    var key := Key(status);
    match Alias(key)
    case Some(canonical) => Normalized(canonical, key != canonical)
    case None => Normalized(status, false)
  }

  /** `GetCanonical`: the canonical part of `Normalize`. */
  function GetCanonical(status: string): string {
    Normalize(status).canonical
  }

  /** Every table value is canonical, and every canonical value maps to itself. */
  lemma AliasesAreCanonical()
    ensures forall k :: Alias(k).Some? ==> IsCanonical(Alias(k).value)
    ensures forall c :: IsCanonical(c) ==> Alias(c) == Some(c)
  {
  }

  /** Lower-case letters and '_' only. */
  predicate LowerWord(w: string) {
    w != [] && forall c :: c in w ==> 'a' <= c <= 'z' || c == '_'
  }

  /** A lower-case word is its own lookup key. */
  lemma LowerWordIsOwnKey(w: string)
    requires LowerWord(w)
    ensures Key(w) == w
  {
    UnpaddedEnds(w);
    TrimSpaceNoop(w);
    ToLowerNoop(w);
  }

  /** Every key of the table is a lower-case word. */
  lemma TableKeyIsLowerWord(k: string)
    requires Alias(k).Some?
    ensures LowerWord(k)
  {
    if |k| <= 6 {
      ShortTableKeyIsLowerWord(k);
    } else if |k| <= 8 {
      MiddleTableKeyIsLowerWord(k);
    } else {
      LongTableKeyIsLowerWord(k);
    }
  }

  lemma ShortTableKeyIsLowerWord(k: string)
    requires Alias(k).Some? && |k| <= 6
    ensures LowerWord(k)
  {
  }

  lemma MiddleTableKeyIsLowerWord(k: string)
    requires Alias(k).Some? && 7 <= |k| <= 8
    ensures LowerWord(k)
  {
  }

  lemma LongTableKeyIsLowerWord(k: string)
    requires Alias(k).Some? && |k| > 8
    ensures LowerWord(k)
  {
  }

  /** The initials of the table's keys, and of its keys of lengths 4 and 7. */
  lemma TableKeyShape(k: string)
    requires Alias(k).Some?
    ensures k != [] && k[0] in {'p', 's', 'c', 'f', 'a', 'q', 'i', 'b', 'd', 'e'}
    ensures |k| == 4 ==> k[0] in {'i', 'f'}
    ensures |k| == 7 ==> k[0] in {'p', 's', 'a', 'f'}
  {
  }

  /** A key outside the table's shapes is not in it. */
  lemma NotTableKey(k: string)
    requires k == [] || k[0] !in {'p', 's', 'c', 'f', 'a', 'q', 'i', 'b', 'd', 'e'} ||
      (|k| == 4 && k[0] !in {'i', 'f'}) || (|k| == 7 && k[0] !in {'p', 's', 'a', 'f'})
    ensures Alias(k).None?
  {
    if Alias(k).Some? {
      TableKeyShape(k);
    }
  }

  /** A canonical value is its own lookup key (lower case, no surrounding space). */
  lemma CanonicalIsOwnKey(c: string)
    requires IsCanonical(c)
    ensures Key(c) == c
  {
    AliasesAreCanonical();
    TableKeyIsLowerWord(c);
    LowerWordIsOwnKey(c);
  }

  /** A canonical value is valid and normalising it reports no change. */
  lemma CanonicalNotNormalized(c: string)
    requires IsCanonical(c)
    ensures IsValid(c)
    ensures Normalize(c) == Normalized(c, false)
  {
    CanonicalIsOwnKey(c);
    AliasesAreCanonical();
  }

  /** Every key of the table normalises to its entry, reported exactly when
      the key is an alias rather than the canonical value itself. */
  lemma NormalizeTableKey(k: string)
    requires Alias(k).Some?
    ensures Normalize(k) == Normalized(Alias(k).value, k != Alias(k).value)
  {
    TableKeyIsLowerWord(k);
    LowerWordIsOwnKey(k);
    NormalizeByKey(k, k);
  }

  /** A status that `Normalize` reports as rewritten differs from the
      canonical form it is rewritten to. */
  lemma RewrittenDiffersFromCanonical(status: string)
    requires Normalize(status).wasNormalized
    ensures status != Normalize(status).canonical
  {
    var c := Normalize(status).canonical;
    if status == c {
      CanonicalIsOwnKey(c);
    }
  }

  /** `GetCanonical` is idempotent. */
  lemma GetCanonicalIdempotent(status: string)
    ensures GetCanonical(GetCanonical(status)) == GetCanonical(status)
  {
    if IsValid(status) {
      CanonicalNotNormalized(GetCanonical(status));
    }
  }

  /** For a valid status, normalising its canonical form reports no change. */
  lemma ValidCanonicalIsFixpoint(status: string)
    requires IsValid(status)
    ensures IsValid(GetCanonical(status))
    ensures !Normalize(GetCanonical(status)).wasNormalized
  {
    CanonicalNotNormalized(GetCanonical(status));
    AliasesAreCanonical();
  }

  /** `Normalize` depends on its input only through the lookup key, unless it is unknown. */
  lemma NormalizeByKey(status: string, key: string)
    requires Key(status) == key
    ensures Alias(key).Some? ==> Normalize(status) == Normalized(Alias(key).value, key != Alias(key).value)
    ensures Alias(key).None? ==> Normalize(status) == Normalized(status, false)
  {
  }

  /** A status whose key is `key`, in the table under `c`. */
  lemma NormalizeByEntry(status: string, key: string, c: string)
    requires Key(status) == key && Alias(key) == Some(c)
    ensures Normalize(status) == Normalized(c, key != c)
  {
    NormalizeByKey(status, key);
  }

  /** Case is ignored: a status and its lower-case form have the same key. */
  lemma KeyIgnoresCase(status: string)
    ensures Key(ToLower(status)) == Key(status)
  {
    TrimSpaceToLower(status);
    ToLowerIdempotent(TrimSpace(status));
  }

  /** Case is ignored: a status is valid exactly when its lower-case form is,
      and then both normalise alike (so "SUCCESS" is the alias "success"). */
  lemma NormalizeIgnoresCase(status: string)
    ensures IsValid(ToLower(status)) <==> IsValid(status)
    ensures IsValid(status) ==> Normalize(ToLower(status)) == Normalize(status)
  {
    KeyIgnoresCase(status);
  }

  /** A lower-case word padded with a space on each side has the word as key. */
  lemma PaddedLowerWordKey(w: string)
    requires LowerWord(w)
    ensures Key([' '] + w + [' ']) == w
  {
    LowerWordIsOwnKey(w);
    UnpaddedEnds(w);
    TrimSpacePadded(w);
    assert TrimSpace([' '] + w + [' ']) == w;
  }

  lemma UnpaddedEnds(w: string)
    requires LowerWord(w)
    ensures !IsSpace(w[0]) && !IsSpace(w[|w| - 1])
  {
    assert w[0] in w && w[|w| - 1] in w;
  }

  /** Surrounding white space is ignored: a table key padded with a space on
      each side normalises like the key itself (" success ", " completed "). */
  lemma NormalizeIgnoresPadding(k: string)
    requires Alias(k).Some?
    ensures Normalize([' '] + k + [' ']) == Normalize(k)
  {
    TableKeyIsLowerWord(k);
    PaddedLowerWordKey(k);
    LowerWordIsOwnKey(k);
    NormalizeByKey([' '] + k + [' '], k);
    NormalizeByKey(k, k);
  }

  const UnknownStatus: string := "unknown"
  const InvalidStatus: string := "invalid"

  /** Unknown input passes through untouched. */
  lemma NormalizeUnknown()
    ensures Normalize(UnknownStatus) == Normalized(UnknownStatus, false)
    ensures Normalize(InvalidStatus) == Normalized(InvalidStatus, false)
  {
    NotAStatus(UnknownStatus);
    NormalizeByKey(UnknownStatus, UnknownStatus);
    NotAStatus(InvalidStatus);
    NormalizeByKey(InvalidStatus, InvalidStatus);
  }

  /** "", "running" and "done" are not statuses. */
  lemma InvalidStatuses()
    ensures !IsValid("") && !IsValid("running") && !IsValid("done")
  {
    NotAStatus("");
    NotAStatus("running");
    NotAStatus("done");
  }

  /** Each probe is its own key and outside the table. */
  lemma NotAStatus(s: string)
    requires s == UnknownStatus || s == InvalidStatus || s == "" || s == "running" || s == "done"
    ensures Key(s) == s
    ensures Alias(s).None?
  {
    NotTableKey(s);
    ProbeIsOwnKey(s);
  }

  lemma ProbeIsOwnKey(s: string)
    requires s == UnknownStatus || s == InvalidStatus || s == "" || s == "running" || s == "done"
    ensures Key(s) == s
  {
    if s != "" {
      assert LowerWord(s);
      LowerWordIsOwnKey(s);
    }
  }
}
