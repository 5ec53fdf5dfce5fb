// Parsing model identifiers. The Triton-style parser demands a strict
// "name:version" and cuts at the first colon; the Clinia embedding parser
// is lenient, looks only at the first two colon-separated pieces and
// falls back to a default version.

module ModelId {

  import opened Common
  import opened Text

  datatype NameVersion = NameVersion(name: string, version: string)

  function MissingID(component: string): Error
  {
    Failure("clinia/" + component + ": model id is required (expected 'name:version')")
  }

  function MissingVersionInID(component: string): Error
  {
    Failure("clinia/" + component + ": model version is required in id (expected 'name:version')")
  }

  function MissingName(component: string): Error
  {
    Failure("clinia/" + component + ": model name is required")
  }

  function MissingVersion(component: string): Error
  {
    Failure("clinia/" + component + ": model version is required")
  }

  /** validateNameVersion: both parts trimmed; an empty name is reported before an empty version. */
  function ValidateNameVersion(component: string, name: string, version: string): (r: Result<NameVersion>)
    ensures AllSpace(name) ==> r == Err(MissingName(component))
    ensures !AllSpace(name) && AllSpace(version) ==> r == Err(MissingVersion(component))
    ensures !AllSpace(name) && !AllSpace(version) ==> r == Ok(NameVersion(TrimSpace(name), TrimSpace(version)))
    ensures r.Ok? ==> r.value.name != "" && r.value.version != ""
  {
    TrimSpaceEmptyIffBlank(name);
    TrimSpaceEmptyIffBlank(version);
    var n := TrimSpace(name);
    if n == "" then Err(MissingName(component))
    else
      var v := TrimSpace(version);
      if v == "" then Err(MissingVersion(component))
      else Ok(NameVersion(n, v))
  }

  /** splitModelID: a strict "name:version" cut at the first colon, both parts trimmed and required. */
  function SplitModelID(component: string, id: string): (r: Result<NameVersion>)
    ensures AllSpace(id) ==> r == Err(MissingID(component))
    ensures !AllSpace(id) && ':' !in TrimSpace(id) ==> r == Err(MissingVersionInID(component))
    ensures r.Ok? ==> r.value.name != "" && r.value.version != ""
  {
    TrimSpaceEmptyIffBlank(id);
    var trimmed := TrimSpace(id);
    if trimmed == "" then Err(MissingID(component))
    else
      var parts := SplitN2(trimmed, ':');
      if |parts| != 2 then Err(MissingVersionInID(component))
      else
        var name := TrimSpace(parts[0]);
        var version := TrimSpace(parts[1]);
        if name == "" then Err(MissingName(component))
        else if version == "" then Err(MissingVersion(component))
        else Ok(NameVersion(name, version))
  }

  /**
   * A successful parse comes from a trimmed id `head + ":" + tail` with no
   * colon in `head`: the name is `head` trimmed and the version the whole
   * of `tail` trimmed, later colons included.
   */
  lemma SplitModelIDSuccess(component: string, id: string)
    requires SplitModelID(component, id).Ok?
    ensures exists head, tail ::
      TrimSpace(id) == head + [':'] + tail && ':' !in head
      && SplitModelID(component, id).value == NameVersion(TrimSpace(head), TrimSpace(tail))
  {
    var parts := SplitN2(TrimSpace(id), ':');
    assert TrimSpace(id) == parts[0] + [':'] + parts[1];
  }

  /**
   * Whenever the trimmed id is `head + ":" + tail` with no colon in
   * `head`, the parse is ValidateNameVersion of the two halves.
   */
  lemma SplitModelIDViaValidate(component: string, id: string, head: string, tail: string)
    requires TrimSpace(id) == head + [':'] + tail && ':' !in head
    ensures SplitModelID(component, id) == ValidateNameVersion(component, head, tail)
  {
    TrimSpaceEmptyIffBlank(id);
    IndexOfAfter(head, ':', tail);
    assert (head + [':'] + tail)[..|head|] == head;
    assert (head + [':'] + tail)[|head| + 1..] == tail;
  }

  /**
   * Only the first colon splits: for a non-empty unpadded name without a
   * colon, "name:version" is that name and the whole version, whatever
   * colons the version holds ("a:b:c" is name "a" and version "b:c").
   */
  lemma SplitModelIDKeepsLaterColons(component: string, name: string, version: string)
    requires name != "" && Unpadded(name) && ':' !in name
    requires version != "" && Unpadded(version)
    ensures SplitModelID(component, name + [':'] + version) == Ok(NameVersion(name, version))
  {
    SplitAtFirstColon(component, name, version);
    ValidateKeepsColons(component, name, version);
  }

  /** An unpadded "name:version" is handed to the name/version check as the name and everything after the first colon. */
  lemma SplitAtFirstColon(component: string, name: string, version: string)
    requires name != "" && Unpadded(name) && ':' !in name
    requires version != "" && Unpadded(version)
    ensures SplitModelID(component, name + [':'] + version) == ValidateNameVersion(component, name, version)
  {
    var id := name + [':'] + version;
    assert id[0] == name[0] && id[|id| - 1] == version[|version| - 1];
    TrimSpaceUnpadded(id);
    SplitModelIDViaValidate(component, id, name, version);
  }

  /** The name/version check accepts non-empty unpadded parts as they are, colons in the version included. */
  lemma ValidateKeepsColons(component: string, name: string, version: string)
    requires name != "" && Unpadded(name)
    requires version != "" && Unpadded(version)
    ensures ValidateNameVersion(component, name, version) == Ok(NameVersion(name, version))
  {
    TrimSpaceUnpadded(name);
    TrimSpaceUnpadded(version);
    assert !AllSpace(name) by { assert !IsSpace(name[0]); }
    assert !AllSpace(version) by { assert !IsSpace(version[0]); }
  }

  /** The Clinia embedding parser's name and version. */
  datatype Identifier = Identifier(name: string, version: string)

  /**
   * splitModelIdentifier: "" and the default for a blank id; the trimmed
   * id and the default without a colon; otherwise the first two pieces,
   * each trimmed, a blank name falling back to the trimmed id and a blank
   * version to the default.
   */
  function SplitModelIdentifier(id: string, defaultVersion: string): (r: Identifier)
    ensures AllSpace(id) ==> r == Identifier("", defaultVersion)
    ensures ':' !in TrimSpace(id) ==> r == Identifier(TrimSpace(id), defaultVersion)
    ensures defaultVersion != "" ==> r.version != ""
    ensures !AllSpace(id) ==> r.name != ""
  {
    TrimSpaceEmptyIffBlank(id);
    var trimmed := TrimSpace(id);
    if trimmed == "" then Identifier("", defaultVersion)
    else
      var parts := Split(trimmed, ':');
      if |parts| > 1 then
        var name := TrimSpace(parts[0]);
        var version := TrimSpace(parts[1]);
        Identifier(if name == "" then trimmed else name, if version == "" then defaultVersion else version)
      else
        Identifier(trimmed, defaultVersion)
  }

  /**
   * For a non-empty id that neither starts nor ends with white space and
   * splits into at least two pieces, the name is the first piece trimmed
   * (the id itself when that is blank) and the version the second piece
   * trimmed (the default when that is blank).
   */
  lemma SplitModelIdentifierPieces(id: string, d: string, parts: seq<string>)
    requires id != [] && Unpadded(id)
    requires Split(id, ':') == parts && |parts| > 1
    ensures SplitModelIdentifier(id, d) == Identifier(
      if TrimSpace(parts[0]) == "" then id else TrimSpace(parts[0]),
      if TrimSpace(parts[1]) == "" then d else TrimSpace(parts[1]))
  {
    TrimSpaceUnpadded(id);
  }

  /** The first two pieces of "name:version:rest", when neither has a colon. */
  lemma TwoColonSplit(name: string, version: string, rest: string)
    requires ':' !in name && ':' !in version
    ensures var parts := Split(name + [':'] + version + [':'] + rest, ':');
      |parts| > 1 && parts[0] == name && parts[1] == version
  {
    var tail := version + [':'] + rest;
    assert name + [':'] + version + [':'] + rest == name + [':'] + tail;
    SplitAfter(version, ':', rest);
    SplitAfter(name, ':', tail);
  }

  /** "name:version:rest" neither starts nor ends with white space when the name and the rest do not. */
  lemma TwoColonUnpadded(name: string, version: string, rest: string)
    requires name != "" && Unpadded(name) && Unpadded(rest)
    ensures Unpadded(name + [':'] + version + [':'] + rest)
  {
    var id := name + [':'] + version + [':'] + rest;
    assert id[0] == name[0];
    assert id[|id| - 1] == if rest == [] then ':' else rest[|rest| - 1];
  }

  /** ":version" splits into "" and the version. */
  lemma LeadingColonSplit(version: string)
    requires ':' !in version
    ensures Split([':'] + version, ':') == ["", version]
  {
    SplitNoSeparator(version, ':');
    SplitAfter("", ':', version);
    assert [':'] + version == "" + [':'] + version;
  }

  /** "name:" splits into the name and "". */
  lemma TrailingColonSplit(name: string)
    requires ':' !in name
    ensures Split(name + [':'], ':') == [name, ""]
  {
    SplitNoSeparator("", ':');
    SplitAfter(name, ':', "");
    assert name + [':'] == name + [':'] + "";
  }

  /**
   * Only the first two pieces are used: for an unpadded name and version
   * without colons, "name:version:rest" gives that name and version,
   * whatever follows.
   */
  lemma SplitModelIdentifierDropsLaterPieces(name: string, version: string, rest: string, d: string)
    requires name != "" && Unpadded(name) && ':' !in name
    requires version != "" && Unpadded(version) && ':' !in version
    requires Unpadded(rest)
    ensures SplitModelIdentifier(name + [':'] + version + [':'] + rest, d) == Identifier(name, version)
  {
    var id := name + [':'] + version + [':'] + rest;
    TwoColonSplit(name, version, rest);
    TwoColonUnpadded(name, version, rest);
    TrimSpaceUnpadded(name);
    TrimSpaceUnpadded(version);
    SplitModelIdentifierPieces(id, d, Split(id, ':'));
  }

  /** A blank name piece falls back to the whole trimmed id: ":version" is named ":version". */
  lemma SplitModelIdentifierNameFallback(version: string, d: string)
    requires version != "" && Unpadded(version) && ':' !in version
    ensures SplitModelIdentifier([':'] + version, d) == Identifier([':'] + version, version)
  {
    var id := [':'] + version;
    assert id[|id| - 1] == version[|version| - 1];
    LeadingColonSplit(version);
    TrimSpaceUnpadded(version);
    var parts := Split(id, ':');
    TrimSpaceUnpadded(parts[0]);
    SplitModelIdentifierPieces(id, d, parts);
  }

  /** A blank version piece falls back to the default version: "name:" has version `d`. */
  lemma SplitModelIdentifierVersionFallback(name: string, d: string)
    requires name != "" && Unpadded(name) && ':' !in name
    ensures SplitModelIdentifier(name + [':'], d) == Identifier(name, d)
  {
    var id := name + [':'];
    assert id[0] == name[0];
    TrailingColonSplit(name);
    TrimSpaceUnpadded(name);
    var parts := Split(id, ':');
    TrimSpaceUnpadded(parts[1]);
    SplitModelIdentifierPieces(id, d, parts);
  }
}
