/**
 * Cedar resources built from table rows (jans-cedarling/cedarling_pg/src/resource.rs): the
 * resource record and its conversion to the engine's entity format, the table-name to
 * entity-type conversion, the choice of a row's id, and the NULL case of datum conversion.
 */
module Resource {
  import opened Wrappers
  import opened Strings
  import opened Json
  import opened Errors

  datatype CedarResource = CedarResource(entityType: string, id: string, attributes: map<string, Value>)

  datatype CedarEntityMapping = CedarEntityMapping(entityType: string, id: string)

  /** The engine's entity format. */
  datatype EntityData = EntityData(cedarMapping: CedarEntityMapping, attributes: map<string, Value>)

  /** `CedarResource::new`: a resource with the given type and id and no attributes. */
  function New(entityType: string, id: string): (r: CedarResource)
    ensures r.entityType == entityType && r.id == id
    ensures |r.attributes| == 0
  {
    CedarResource(entityType, id, map[])
  }

  /** `with_attributes`: the attributes are replaced wholesale; type and id are kept. */
  function WithAttributes(r: CedarResource, attributes: map<string, Value>): (r': CedarResource)
    ensures r'.attributes == attributes
    ensures r'.entityType == r.entityType && r'.id == r.id
  {
    r.(attributes := attributes)
  }

  /** `to_entity_data`: type, id and attributes carried over unchanged. */
  function ToEntityData(r: CedarResource): (e: EntityData)
    ensures e.cedarMapping.entityType == r.entityType && e.cedarMapping.id == r.id
    ensures e.attributes == r.attributes
  {
    EntityData(CedarEntityMapping(r.entityType, r.id), r.attributes)
  }

  /** A resource built with `New` and `WithAttributes` reaches the engine exactly as built. */
  lemma BuiltResourceReachesEngine(entityType: string, id: string, attributes: map<string, Value>)
    ensures ToEntityData(WithAttributes(New(entityType, id), attributes))
            == EntityData(CedarEntityMapping(entityType, id), attributes)
  {
  }

  // ----- Table name to entity type -----

  /** A word with its first character upper-cased (ASCII only), the empty word unchanged. */
  function Capitalize(w: string): string {
    if |w| == 0 then "" else [UpperChar(w[0])] + w[1..]
  }

  function ConcatCapitalized(words: seq<string>): string {
    if |words| == 0 then "" else Capitalize(words[0]) + ConcatCapitalized(words[1..])
  }

  /**
   * `table_name_to_entity_type`: split on '_', upper-case the first character of each piece
   * and concatenate, so "user_profiles" becomes "UserProfiles". The result agrees with the
   * character-wise `Pascal` on every table name, and so never contains '_'.
   */
  function TableNameToEntityType(tableName: string): (r: string)
    ensures r == Pascal(tableName, true)
    ensures '_' !in r
  {
    var parts := Split(tableName, '_');
    SplitAgreesWithPascal(tableName);
    PascalHasNoUnderscore(tableName, true);
    assert ConcatCapitalized(parts) == Capitalize(parts[0]) + ConcatCapitalized(parts[1..]);
    ConcatCapitalized(parts)
  }

  /**
   * The same conversion stated character by character: '_' is dropped, and the first
   * character after the start or after a '_' is upper-cased.
   */
  function Pascal(s: string, atWordStart: bool): string {
    if |s| == 0 then ""
    else if s[0] == '_' then Pascal(s[1..], true)
    else [if atWordStart then UpperChar(s[0]) else s[0]] + Pascal(s[1..], false)
  }

  lemma {:induction false} SplitAgreesWithPascal(s: string)
    ensures Pascal(s, true) == Capitalize(Split(s, '_')[0]) + ConcatCapitalized(Split(s, '_')[1..])
    ensures Pascal(s, false) == Split(s, '_')[0] + ConcatCapitalized(Split(s, '_')[1..])
  {
    if |s| > 0 {
      SplitAgreesWithPascal(s[1..]);
      var rest := Split(s[1..], '_');
      if s[0] == '_' {
        assert Split(s, '_') == [""] + rest;
        assert Split(s, '_')[1..] == rest;
        assert ConcatCapitalized(rest) == Capitalize(rest[0]) + ConcatCapitalized(rest[1..]);
      } else {
        var parts := Split(s, '_');
        assert parts[0] == [s[0]] + rest[0];
        assert parts[1..] == rest[1..];
        assert Capitalize(parts[0]) == [UpperChar(s[0])] + rest[0];
      }
    }
  }

  lemma {:induction false} PascalHasNoUnderscore(s: string, atWordStart: bool)
    ensures '_' !in Pascal(s, atWordStart)
  {
    if |s| > 0 {
      PascalHasNoUnderscore(s[1..], true);
      PascalHasNoUnderscore(s[1..], false);
    }
  }

  /** Empty pieces ("a__b", a leading or trailing '_') contribute nothing to the entity type. */
  lemma {:induction false} EmptyPiecesVanish(words: seq<string>)
    ensures ConcatCapitalized(words) == ConcatCapitalized(NonEmpty(words))
  {
    if |words| > 0 {
      EmptyPiecesVanish(words[1..]);
      if words[0] == "" {
        assert NonEmpty(words) == [] + NonEmpty(words[1..]) == NonEmpty(words[1..]);
        assert ConcatCapitalized(words) == "" + ConcatCapitalized(words[1..]);
      } else {
        var ne := NonEmpty(words);
        assert ne == [words[0]] + NonEmpty(words[1..]);
        assert ne[1..] == NonEmpty(words[1..]);
      }
    }
  }

  function NonEmpty(words: seq<string>): seq<string> {
    if |words| == 0 then []
    else (if words[0] == "" then [] else [words[0]]) + NonEmpty(words[1..])
  }

  /** A string without '_' only has its first character changed by the conversion. */
  lemma {:induction false} PascalOfWord(s: string)
    requires '_' !in s
    ensures Pascal(s, false) == s
  {
    if |s| > 0 {
      PascalOfWord(s[1..]);
    }
  }

  /** The first character of a converted name is upper-cased (ASCII). */
  lemma {:induction false} PascalStartsUpper(s: string)
    ensures |Pascal(s, true)| > 0 ==>
              exists c :: Pascal(s, true)[0] == UpperChar(c)
  {
    if |s| > 0 && s[0] == '_' {
      PascalStartsUpper(s[1..]);
    }
  }

  /** Converting an entity type name again changes nothing. */
  lemma EntityTypeIdempotent(tableName: string)
    ensures TableNameToEntityType(TableNameToEntityType(tableName)) == TableNameToEntityType(tableName)
  {
    var once := TableNameToEntityType(tableName);
    var again := TableNameToEntityType(once);
    if |once| > 0 {
      PascalStartsUpper(tableName);
      var c :| once[0] == UpperChar(c);
      assert UpperChar(once[0]) == once[0];
      PascalOfWord(once[1..]);
      assert once == [once[0]] + once[1..];
    }
  }

  /** Converting two '_'-separated parts converts each part on its own. */
  lemma {:induction false} PascalAppend(a: string, b: string, atWordStart: bool)
    requires '_' !in a
    ensures Pascal(a + "_" + b, atWordStart) == Pascal(a, atWordStart) + Pascal(b, true)
  {
    var s := a + "_" + b;
    if |a| == 0 {
      assert s[0] == '_' && s[1..] == b;
    } else {
      assert s[0] == a[0] && a[0] != '_';
      assert s[1..] == a[1..] + "_" + b;
      PascalAppend(a[1..], b, false);
      var head := [if atWordStart then UpperChar(a[0]) else a[0]];
      calc {
        Pascal(s, atWordStart);
        head + Pascal(a[1..] + "_" + b, false);
        head + (Pascal(a[1..], false) + Pascal(b, true));
        (head + Pascal(a[1..], false)) + Pascal(b, true);
        Pascal(a, atWordStart) + Pascal(b, true);
      }
    }
  }

  /** A word without '_' converts to the word with its first character upper-cased. */
  lemma CapitalizedWord(w: string)
    requires |w| > 0 && '_' !in w
    ensures Pascal(w, true) == [UpperChar(w[0])] + w[1..]
  {
    PascalOfWord(w[1..]);
  }

  /** The conversion on the names of the source's unit test: "users" becomes "Users". */
  lemma EntityTypeExampleUsers()
    ensures TableNameToEntityType("users") == "Users"
  {
  }

  /** A word without '_' converts to itself with the first character upper-cased. */
  lemma SingleWord(w: string)
    requires '_' !in w
    ensures Pascal(w, true) == Capitalize(w)
  {
    if |w| > 0 {
      CapitalizedWord(w);
    }
  }

  /** Two '_'-joined words convert to the two words capitalized and run together. */
  lemma TwoWords(a: string, b: string)
    requires '_' !in a && '_' !in b
    ensures TableNameToEntityType(a + "_" + b) == Capitalize(a) + Capitalize(b)
  {
    PascalAppend(a, b, true);
    SingleWord(a);
    SingleWord(b);
  }

  /** The conversion on the names of the source's unit test: "user_profiles" becomes "UserProfiles". */
  lemma EntityTypeExampleUserProfiles(tableName: string)
    requires tableName == "user" + "_" + "profiles"
    ensures TableNameToEntityType(tableName) == "UserProfiles"
  {
    TwoWords("user", "profiles");
  }

  // ----- Primary-key id -----

  /** The attribute names tried, in order, as a row's primary key. */
  const PkCandidates: seq<string> := ["id", "uuid", "pk", "primary_key"]

  /** An attribute can serve as the id when it is present and a string or a number. */
  predicate UsableKey(attributes: map<string, Value>, name: string) {
    name in attributes && (attributes[name].Str? || IsNumber(attributes[name]))
  }

  function IdText(v: Value): string
    requires v.Str? || IsNumber(v)
  {
    if v.Str? then v.s else NumberText(v)
  }

  /**
   * `generate_primary_key_id`: the value of the first candidate attribute that is a string or
   * a number; otherwise "row_" followed by a hash of the row, which the model takes as input.
   */
  method GeneratePrimaryKeyId(attributes: map<string, Value>, rowHash: nat) returns (id: string)
    ensures (exists i :: 0 <= i < |PkCandidates| && UsableKey(attributes, PkCandidates[i])) ==>
              exists i :: 0 <= i < |PkCandidates| && UsableKey(attributes, PkCandidates[i])
                          && (forall j :: 0 <= j < i ==> !UsableKey(attributes, PkCandidates[j]))
                          && id == IdText(attributes[PkCandidates[i]])
    ensures (forall i :: 0 <= i < |PkCandidates| ==> !UsableKey(attributes, PkCandidates[i])) ==>
              id == "row_" + NatToString(rowHash)
  {
    var i := 0;
    while i < |PkCandidates|
      invariant 0 <= i <= |PkCandidates|
      invariant forall j :: 0 <= j < i ==> !UsableKey(attributes, PkCandidates[j])
    {
      var name := PkCandidates[i];
      if name in attributes {
        var v := attributes[name];
        if v.Str? {
          return v.s;
        } else if IsNumber(v) {
          return NumberText(v);
        }
      }
      i := i + 1;
    }
    id := "row_" + NatToString(rowHash);
  }

  // ----- Datum conversion -----

  /**
   * `pg_datum_to_json_value`: SQL NULL becomes JSON null; every other datum becomes the fixed
   * placeholder string, whatever its type and value.
   */
  function DatumToJson(isNull: bool): (r: Result<Value, CedarlingError>)
    ensures r.Ok?
    ensures r.value == Null <==> isNull
    ensures !isNull ==> r.value.Str?
  {
    if isNull then Ok(Null) else Ok(Str("placeholder_value"))
  }
}
