/** Step 4, the result: the declaration shown as text or as a payload, its
    fingerprint once computed, and the two downloads. */
module OutputStep {
  import opened Wrappers
  import opened JsStrings
  import opened Types
  import opened Render
  import opened Payload
  import opened Fingerprint

  /** The two tabs. */
  datatype Tab = TextTab | JsonTab

  /** What the preview shows. */
  datatype Rendering = TextView(text: string) | JsonView(payload: DeclarationPayload)

  /** `hash || fallback`, with `null` as `None`. */
  function HashOr(hash: Option<string>, fallback: string): string {
    if hash.Some? && hash.value != "" then hash.value else fallback
  }

  /** The preview on the text tab: the hash, or "..." while it is being computed. */
  function ShownText(c: Catalog, d: DeclarationState, hash: Option<string>): string {
    DeclarationText(c, d, HashOr(hash, "..."))
  }

  /** The preview on the payload tab. */
  function ShownPayload(c: Catalog, d: DeclarationState, hash: Option<string>, generatedAt: string): DeclarationPayload {
    GenerateJson(c, d, generatedAt, HashOr(hash, "..."))
  }

  /** The preview of the active tab. */
  function Content(c: Catalog, d: DeclarationState, tab: Tab, hash: Option<string>, generatedAt: string): Rendering {
    match tab
    case TextTab => TextView(ShownText(c, d, hash))
    case JsonTab => JsonView(ShownPayload(c, d, hash, generatedAt))
  }

  /** The text download, without a trailer while the hash is missing. */
  function TextDownload(c: Catalog, d: DeclarationState, hash: Option<string>): string {
    DeclarationText(c, d, HashOr(hash, ""))
  }

  /** The payload download, marked pending while the hash is missing. */
  function JsonDownload(c: Catalog, d: DeclarationState, hash: Option<string>, generatedAt: string): DeclarationPayload {
    GenerateJson(c, d, generatedAt, HashOr(hash, ""))
  }

  /** The fingerprint the effect computes: that of the text without trailer. */
  function RawFingerprint(sha256: Sha256, c: Catalog, d: DeclarationState): string {
    ComputeHash(sha256, DeclarationText(c, d, ""))
  }

  /** A fingerprint of any text, stamped after it, can be checked against it. */
  lemma StampOver(sha256: Sha256, raw: string, d: DeclarationState)
    ensures var h := ComputeHash(sha256, raw);
      var file := raw + TrailerText(d, h);
      |h| == 16 && (forall i :: 0 <= i < 16 ==> IsUpperHexDigit(h[i])) &&
      raw < file && EndsWith(file, "HASH VALIDACIÓN: " + h + "\n") &&
      ComputeHash(sha256, file[..|raw|]) == h
  {
    var h := ComputeHash(sha256, raw);
    FingerprintSpellsFirstEightBytes(sha256(raw));
    TrailerAfter(raw, d, h);
    var file := raw + TrailerText(d, h);
    assert file[..|raw|] == raw;
  }

  /** The stamped download is the hashed text followed by a trailer with
      the fingerprint of that text, so by `StampOver` anyone can check it. */
  lemma StampedDownloadVerifies(sha256: Sha256, c: Catalog, d: DeclarationState)
    ensures var h := RawFingerprint(sha256, c, d);
      h == ComputeHash(sha256, RawText(c, d)) && TextDownload(c, d, Some(h)) == RawText(c, d) + TrailerText(d, h)
  {
    RawFingerprintOfRawText(sha256, c, d);
    FingerprintPresent(sha256, c, d);
    StampedTextDownload(c, d, RawFingerprint(sha256, c, d));
  }

  lemma RawFingerprintOfRawText(sha256: Sha256, c: Catalog, d: DeclarationState)
    ensures RawFingerprint(sha256, c, d) == ComputeHash(sha256, RawText(c, d))
  {
    TrailerOnlyWithHash(c, d, "");
  }

  /** A computed fingerprint is never empty, so it is always stamped. */
  lemma FingerprintPresent(sha256: Sha256, c: Catalog, d: DeclarationState)
    ensures |RawFingerprint(sha256, c, d)| == 16
  {
    FingerprintSpellsFirstEightBytes(sha256(DeclarationText(c, d, "")));
  }

  /** With a hash the text download is the bare text and its trailer. */
  lemma StampedTextDownload(c: Catalog, d: DeclarationState, h: string)
    requires h != ""
    ensures TextDownload(c, d, Some(h)) == RawText(c, d) + TrailerText(d, h)
  {
    assert HashOr(Some(h), "") == h;
  }

  /** The declaration id is printed only in the trailer, so it is not
      covered by the fingerprint. */
  lemma FingerprintIgnoresId(sha256: Sha256, c: Catalog, d: DeclarationState, id: string)
    ensures RawFingerprint(sha256, c, d.(declarationId := id)) == RawFingerprint(sha256, c, d)
  {
    TrailerOnlyWithHash(c, d, "");
    TrailerOnlyWithHash(c, d.(declarationId := id), "");
    RawTextIgnoresId(c, d, id);
  }

  /** Before the hash arrives the text preview ends with "..." where the
      hash goes, while the text download has no trailer. */
  lemma PendingText(c: Catalog, d: DeclarationState)
    ensures EndsWith(ShownText(c, d, None), "HASH VALIDACIÓN: " + "..." + "\n")
    ensures TextDownload(c, d, None) == RawText(c, d)
  {
    assert HashOr(None, "...") == "...";
    assert HashOr(None, "") == "";
    TrailerOnlyWithHash(c, d, "...");
    TrailerOnlyWithHash(c, d, "");
  }

  /** Before the hash arrives the payload preview carries "..." as its
      hash, and the payload download says "pending". */
  lemma PendingPayload(c: Catalog, d: DeclarationState, generatedAt: string)
    ensures ShownPayload(c, d, None, generatedAt).validationHash == "..."
    ensures JsonDownload(c, d, None, generatedAt).validationHash == PendingHash
  {
    assert HashOr(None, "...") == "...";
    assert HashOr(None, "") == "";
    ValidationHashField(c, d, generatedAt, "...");
    ValidationHashField(c, d, generatedAt, "");
  }

  /** Once the hash is there, the preview and the downloads agree. */
  lemma ResolvedViewsAgree(sha256: Sha256, c: Catalog, d: DeclarationState, generatedAt: string)
    ensures var hash := Some(RawFingerprint(sha256, c, d));
      ShownText(c, d, hash) == TextDownload(c, d, hash) &&
      ShownPayload(c, d, hash, generatedAt) == JsonDownload(c, d, hash, generatedAt) &&
      JsonDownload(c, d, hash, generatedAt).validationHash == RawFingerprint(sha256, c, d)
  {
    var h := RawFingerprint(sha256, c, d);
    FingerprintSpellsFirstEightBytes(sha256(DeclarationText(c, d, "")));
    assert HashOr(Some(h), "...") == h == HashOr(Some(h), "");
    ValidationHashField(c, d, generatedAt, h);
  }

  /** The license badge appears exactly when the text has a license section. */
  lemma LicenseBadgeIffSection(c: Catalog, d: DeclarationState)
    ensures LicenseShown(d.license) <==> LicenseText(c, d) != ""
  {
    if LicenseShown(d.license) {
      assert |LicenseText(c, d)| >= |LicenseHeading|;
    }
  }

  /** The state of the result step, from its mounting. */
  class OutputStep {
    const data: DeclarationState
    const catalog: Catalog
    var activeTab: Tab
    var hash: Option<string>

    /** A hash, once there, is a fingerprint: 16 upper-case hex digits. */
    ghost predicate Valid()
      reads this
    {
      hash.Some? ==> |hash.value| == 16 && forall i :: 0 <= i < 16 ==> IsUpperHexDigit(hash.value[i])
    }

    constructor (data: DeclarationState, catalog: Catalog)
      ensures Valid()
      ensures this.data == data && this.catalog == catalog && activeTab == TextTab && hash == None
    {
      this.data := data;
      this.catalog := catalog;
      activeTab := TextTab;
      hash := None;
    }

    /** The effect's `computeHash(rawContent).then(setHash)`, with the
        platform digest as a parameter. */
    method ResolveHash(sha256: Sha256)
      requires Valid()
      modifies this
      ensures Valid()
      ensures hash == Some(RawFingerprint(sha256, catalog, data)) && activeTab == old(activeTab)
      ensures IntegrityCardShown()
    {
      FingerprintSpellsFirstEightBytes(sha256(DeclarationText(catalog, data, "")));
      hash := Some(RawFingerprint(sha256, catalog, data));
    }

    /** A tab click. */
    method SelectTab(tab: Tab)
      requires Valid()
      modifies this
      ensures Valid()
      ensures activeTab == tab && hash == old(hash)
    {
      activeTab := tab;
    }

    /** The preview, which is also what the copy button copies. */
    function Shown(generatedAt: string): Rendering
      reads this
    {
      Content(catalog, data, activeTab, hash, generatedAt)
    }

    /** The certificate card appears once the hash is there. */
    predicate IntegrityCardShown()
      reads this
    {
      hash.Some? && hash.value != ""
    }

    /** The license badge appears for a license other than "None". */
    predicate LicenseBadgeShown() {
      LicenseShown(data.license)
    }
  }
}
