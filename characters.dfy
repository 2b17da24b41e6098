/**
 * The character registry of the backend (backend/app/character_router.py):
 * an in-memory list of character records, each a JSON object, identified
 * by the pair (name, realm). Loading and saving the JSON file are I/O and
 * are left out; the list the file held is given to the constructor.
 */
module Characters {
  import opened Wrappers

  /** A JSON value, as stored in a record and as sent in an update. */
  datatype Value =
    | Null
    | Bool(b: bool)
    | Int(i: int)
    | Str(s: string)
    | List(items: seq<Value>)
    | Dict(fields: map<string, Value>)

  /** A stored character: the JSON object `character.dict()` produced, as later updated. */
  type Record = map<string, Value>

  datatype Profession = Profession(name: string, skillLevel: int, maxSkill: int, specialization: Option<string>)

  datatype Character = Character(
    name: string, realm: string, faction: string, level: int, gold: int, professions: seq<Profession>)

  function ProfessionDict(p: Profession): Record
  {
    map[
      "name" := Str(p.name),
      "skill_level" := Int(p.skillLevel),
      "max_skill" := Int(p.maxSkill),
      "specialization" := if p.specialization.Some? then Str(p.specialization.value) else Null]
  }

  /** `character.dict()`: the record a validated character becomes. */
  function CharacterDict(c: Character): (r: Record)
    ensures "name" in r && r["name"] == Str(c.name)
    ensures "realm" in r && r["realm"] == Str(c.realm)
  {
    map[
      "name" := Str(c.name),
      "realm" := Str(c.realm),
      "faction" := Str(c.faction),
      "level" := Int(c.level),
      "gold" := Int(c.gold),
      "professions" := List(ProfessionList(c.professions))]
  }

  /** The JSON list a character's professions become. */
  function ProfessionList(ps: seq<Profession>): (r: seq<Value>)
    ensures |r| == |ps|
    ensures forall k :: 0 <= k < |ps| ==> r[k] == Dict(ProfessionDict(ps[k]))
  {
    if ps == [] then [] else [Dict(ProfessionDict(ps[0]))] + ProfessionList(ps[1..])
  }

  /** `c['name'] == name and c['realm'] == realm`. */
  predicate Matches(r: Record, name: string, realm: string)
  {
    "name" in r && "realm" in r && r["name"] == Str(name) && r["realm"] == Str(realm)
  }

  /** Position of the first record with the key (name, realm). */
  function FirstMatch(s: seq<Record>, name: string, realm: string): (r: Option<nat>)
    ensures r.None? <==> forall k :: 0 <= k < |s| ==> !Matches(s[k], name, realm)
    ensures r.Some? ==> r.value < |s| && Matches(s[r.value], name, realm)
    ensures r.Some? ==> forall k :: 0 <= k < r.value ==> !Matches(s[k], name, realm)
  {
    if s == [] then None
    else if Matches(s[0], name, realm) then Some(0)
    else match FirstMatch(s[1..], name, realm)
      case None => None
      case Some(k) => Some(k + 1)
  }

  /** The record `get(name, realm)` returns. */
  function Lookup(s: seq<Record>, name: string, realm: string): (r: Option<Record>)
    ensures r.None? <==> forall k :: 0 <= k < |s| ==> !Matches(s[k], name, realm)
    ensures r.Some? ==> exists k :: 0 <= k < |s| && s[k] == r.value && Matches(r.value, name, realm) &&
                                    forall j :: 0 <= j < k ==> !Matches(s[j], name, realm)
  {
    match FirstMatch(s, name, realm)
    case None => None
    case Some(k) => Some(s[k])
  }

  /** No two records share a (name, realm) key. */
  predicate UniqueKeys(s: seq<Record>)
  {
    forall i, j :: 0 <= i < j < |s| ==> !SameKey(s[i], s[j])
  }

  /** Two records with equal name and equal realm fields. */
  predicate SameKey(a: Record, b: Record)
  {
    "name" in a && "realm" in a && "name" in b && "realm" in b &&
    a["name"] == b["name"] && a["realm"] == b["realm"]
  }

  /** Every record carries the two key fields; no operation removes a field. */
  predicate Keyed(s: seq<Record>)
  {
    forall k :: 0 <= k < |s| ==> "name" in s[k] && "realm" in s[k]
  }

  /** `update`'s `char.update(updates)`: the given keys take the new values, the others stay. */
  function Merge(r: Record, updates: Record): (m: Record)
    ensures m.Keys == r.Keys + updates.Keys
    ensures forall k | k in updates :: m[k] == updates[k]
    ensures forall k | k in r && k !in updates :: m[k] == r[k]
  {
    r + updates
  }

  datatype CharacterError = AlreadyExists(name: string, realm: string) | NotFound(name: string, realm: string)

  class CharacterDB {
    var characters: seq<Record>

    ghost predicate Valid()
      reads this
    {
      Keyed(characters)
    }

    /** The registry over the list the JSON file held (empty when there was no file). */
    constructor (loaded: seq<Record>)
      requires Keyed(loaded)
      ensures Valid() && characters == loaded
    {
      characters := loaded;
    }

    /** The first-match search behind `get`, `add` and `update`. */
    method Find(name: string, realm: string) returns (k: Option<nat>)
      requires Valid()
      ensures k == FirstMatch(characters, name, realm)
    {
      var i := 0;
      while i < |characters|
        invariant 0 <= i <= |characters|
        invariant forall j :: 0 <= j < i ==> !Matches(characters[j], name, realm)
      {
        if Matches(characters[i], name, realm) {
          FirstMatchIsFirst(characters, name, realm, i);
          return Some(i);
        }
        i := i + 1;
      }
      return None;
    }

    /** `get`: the first record with the key, or None. */
    method Get(name: string, realm: string) returns (r: Option<Record>)
      requires Valid()
      ensures r == Lookup(characters, name, realm)
      ensures r.None? <==> forall k :: 0 <= k < |characters| ==> !Matches(characters[k], name, realm)
      ensures r.Some? ==> Matches(r.value, name, realm) && r.value in characters
    {
      var k := Find(name, realm);
      r := if k.Some? then Some(characters[k.value]) else None;
    }

    /** `add`: refuse a key already present; otherwise append the new record at the end. */
    method Add(c: Character) returns (r: Result<Record, CharacterError>)
      requires Valid()
      modifies this
      ensures Valid()
      ensures Lookup(old(characters), c.name, c.realm).Some? ==>
                r == Failure(AlreadyExists(c.name, c.realm)) && characters == old(characters)
      ensures Lookup(old(characters), c.name, c.realm).None? ==>
                r == Success(CharacterDict(c)) && characters == old(characters) + [CharacterDict(c)]
      ensures UniqueKeys(old(characters)) ==> UniqueKeys(characters)
      ensures Lookup(characters, c.name, c.realm).Some?
    {
      var existing := Get(c.name, c.realm);
      if existing.Some? {
        return Failure(AlreadyExists(c.name, c.realm));
      }
      var d := CharacterDict(c);
      AddThenGet(characters, c);
      if UniqueKeys(characters) {
        AddKeepsUnique(characters, c);
      }
      characters := characters + [d];
      r := Success(d);
    }

    /** `update`: merge the fields into the first record with the key, in place. */
    method Update(name: string, realm: string, updates: Record) returns (r: Result<Record, CharacterError>)
      requires Valid()
      modifies this
      ensures Valid()
      ensures FirstMatch(old(characters), name, realm).None? ==>
                r == Failure(NotFound(name, realm)) && characters == old(characters)
      ensures FirstMatch(old(characters), name, realm).Some? ==>
                var k := FirstMatch(old(characters), name, realm).value;
                characters == old(characters)[k := Merge(old(characters)[k], updates)] && r == Success(characters[k])
    {
      var k := Find(name, realm);
      if k.None? {
        return Failure(NotFound(name, realm));
      }
      var merged := Merge(characters[k.value], updates);
      characters := characters[k.value := merged];
      r := Success(merged);
    }

    /** `list_all`: the stored records themselves, in insertion order. */
    method ListAll() returns (r: seq<Record>)
      ensures r == characters
    {
      r := characters;
    }
  }

  lemma FirstMatchIsFirst(s: seq<Record>, name: string, realm: string, i: nat)
    requires i < |s| && Matches(s[i], name, realm)
    requires forall j :: 0 <= j < i ==> !Matches(s[j], name, realm)
    ensures FirstMatch(s, name, realm) == Some(i)
  {
    var r := FirstMatch(s, name, realm);
    assert r.Some?;
  }

  /** After adding a fresh key, looking it up finds the record just added. */
  lemma {:induction false} AddThenGet(s: seq<Record>, c: Character)
    requires Lookup(s, c.name, c.realm).None?
    ensures Lookup(s + [CharacterDict(c)], c.name, c.realm) == Some(CharacterDict(c))
  {
    FirstMatchIsFirst(s + [CharacterDict(c)], c.name, c.realm, |s|);
  }

  /** Adding never disturbs lookups of other keys. */
  lemma {:induction false} AddKeepsOtherLookups(s: seq<Record>, c: Character, name: string, realm: string)
    requires name != c.name || realm != c.realm
    ensures Lookup(s + [CharacterDict(c)], name, realm) == Lookup(s, name, realm)
  {
    var t := s + [CharacterDict(c)];
    match FirstMatch(s, name, realm)
    case None =>
      assert forall k :: 0 <= k < |t| ==> !Matches(t[k], name, realm) by {
        forall k | 0 <= k < |t| ensures !Matches(t[k], name, realm) {
          if k < |s| { assert t[k] == s[k]; }
        }
      }
    case Some(i) =>
      FirstMatchIsFirst(t, name, realm, i);
  }

  /** Adding a key that is not yet present keeps the keys unique. */
  lemma {:induction false} AddKeepsUnique(s: seq<Record>, c: Character)
    requires Lookup(s, c.name, c.realm).None?
    requires UniqueKeys(s)
    ensures UniqueKeys(s + [CharacterDict(c)])
  {
    var t := s + [CharacterDict(c)];
    forall i, j | 0 <= i < j < |t|
      ensures !SameKey(t[i], t[j])
    {
      if j == |s| {
        assert t[i] == s[i];
        assert !Matches(s[i], c.name, c.realm);
      } else {
        assert t[i] == s[i] && t[j] == s[j];
      }
    }
  }

  /** An update that leaves the name and realm alone keeps the keys unique. */
  lemma {:induction false} UpdateKeepsUniqueWithoutKeyFields(s: seq<Record>, k: nat, updates: Record)
    requires k < |s| && UniqueKeys(s)
    requires "name" !in updates && "realm" !in updates
    ensures UniqueKeys(s[k := Merge(s[k], updates)])
  {
    var t := s[k := Merge(s[k], updates)];
    forall i, j | 0 <= i < j < |t|
      ensures !SameKey(t[i], t[j])
    {
      assert !SameKey(s[i], s[j]);
    }
  }

  /** But an update that renames a character can give two records the same key. */
  lemma UpdateCanBreakUniqueness()
    ensures var s := [CharacterDict(Character("Ann", "Stormrage", "Horde", 60, 0, [])),
                      CharacterDict(Character("Bob", "Stormrage", "Horde", 60, 0, []))];
            UniqueKeys(s) && !UniqueKeys(s[1 := Merge(s[1], map["name" := Str("Ann")])])
  {
    var a := CharacterDict(Character("Ann", "Stormrage", "Horde", 60, 0, []));
    var b := CharacterDict(Character("Bob", "Stormrage", "Horde", 60, 0, []));
    assert "Ann" != "Bob" by { assert "Ann"[0] != "Bob"[0]; }
    assert !SameKey(a, b);
    var t := [a, b][1 := Merge(b, map["name" := Str("Ann")])];
    assert SameKey(t[0], t[1]);
  }

  // ---------------------------------------------------------------
  // HTTP handlers: how the registry's outcomes become status codes,
  // and the profession lookup of the crafting-guide handler.
  // ---------------------------------------------------------------

  datatype HttpError = HttpError(status: nat, detail: string)

  /** POST /: a duplicate key is a conflict (409). */
  function CreateResponse(r: Result<Record, CharacterError>): Result<Record, HttpError>
  {
    match r
    case Success(rec) => Success(rec)
    case Failure(e) => Failure(HttpError(409, ErrorText(e)))
  }

  /** PUT /{name}/{realm}: an unknown key is not found (404). */
  function UpdateResponse(r: Result<Record, CharacterError>): Result<Record, HttpError>
  {
    match r
    case Success(rec) => Success(rec)
    case Failure(e) => Failure(HttpError(404, ErrorText(e)))
  }

  /** GET /{name}/{realm}: a missing character is not found (404). */
  function GetResponse(r: Option<Record>): Result<Record, HttpError>
  {
    match r
    case Some(rec) => Success(rec)
    case None => Failure(HttpError(404, "Character not found"))
  }

  /**
   * A duplicate `add` answers 409, an unknown `update` or `get` answers 404,
   * and a success passes the record through.
   */
  lemma ResponseCodes(rec: Record, name: string, realm: string)
    ensures CreateResponse(Failure(AlreadyExists(name, realm))).error.status == 409
    ensures UpdateResponse(Failure(NotFound(name, realm))).error.status == 404
    ensures GetResponse(None).error.status == 404
    ensures CreateResponse(Success(rec)) == UpdateResponse(Success(rec)) == GetResponse(Some(rec)) == Success(rec)
  {
  }

  /** The message of the ValueError the registry raises. */
  function ErrorText(e: CharacterError): string
  {
    match e
    case AlreadyExists(name, realm) => "Character " + name + "-" + realm + " already exists"
    case NotFound(name, realm) => "Character " + name + "-" + realm + " not found"
  }

  /** `str.lower()`, on ASCII letters. */
  function Lower(s: string): (r: string)
    ensures |r| == |s|
    ensures forall k :: 0 <= k < |s| ==> r[k] == LowerChar(s[k])
  {
    if s == [] then [] else [LowerChar(s[0])] + Lower(s[1..])
  }

  function LowerChar(c: char): char
  {
    if 'A' <= c <= 'Z' then (c as int + 32) as char else c
  }

  /** The items `for p in char['professions']` walks; a value that cannot be walked is a server error. */
  function Iterate(v: Value): Option<seq<Value>>
  {
    match v
    case List(items) => Some(items)
    case Str(s) => Some(seq(|s|, k requires 0 <= k < |s| => Str([s[k]])))
    case Dict(fields) => if fields == map[] then Some([]) else None
    case _ => None
  }

  /** `p['name'].lower() == profession.lower()`; None when `p` has no string name (the handler fails). */
  function NameMatches(p: Value, wanted: string): Option<bool>
  {
    if p.Dict? && "name" in p.fields && p.fields["name"].Str? then
      Some(Lower(p.fields["name"].s) == Lower(wanted))
    else None
  }

  /** A server error (500): a field the handler reads is missing or has the wrong type. */
  const ServerError := HttpError(500, "Internal Server Error")

  /** Every item before position `k` has a string name that differs from `wanted` ignoring case. */
  predicate MissesBefore(items: seq<Value>, wanted: string, k: nat)
    requires k <= |items|
  {
    forall j :: 0 <= j < k ==> NameMatches(items[j], wanted) == Some(false)
  }

  /**
   * `next(...)` over the professions: the first item whose name equals
   * `wanted` ignoring case gives Success(Some(p)); none gives Success(None);
   * an item reached before any match that has no string name is a server error.
   */
  function FindProfession(items: seq<Value>, wanted: string): (r: Result<Option<Record>, HttpError>)
    ensures r == Success(None) <==> forall k :: 0 <= k < |items| ==> NameMatches(items[k], wanted) == Some(false)
    ensures r.Success? && r.value.Some? ==>
              exists k :: 0 <= k < |items| && items[k] == Dict(r.value.value) &&
                          NameMatches(items[k], wanted) == Some(true) && MissesBefore(items, wanted, k)
    ensures r.Failure? <==> exists k :: 0 <= k < |items| && NameMatches(items[k], wanted).None? && MissesBefore(items, wanted, k)
    ensures r.Failure? ==> r.error == ServerError
    decreases |items|
  {
    if items == [] then Success(None)
    else match NameMatches(items[0], wanted)
      case None =>
        assert MissesBefore(items, wanted, 0);
        Failure(ServerError)
      case Some(true) =>
        assert MissesBefore(items, wanted, 0);
        assert forall k :: 0 <= k < |items| && MissesBefore(items, wanted, k) ==> k == 0;
        Success(Some(items[0].fields))
      case Some(false) =>
        var rest := FindProfession(items[1..], wanted);
        FindProfessionStep(items, wanted, rest);
        rest
  }

  /** Past a first item whose name differs, the answer is the answer over the remaining items. */
  lemma {:induction false} FindProfessionStep(items: seq<Value>, wanted: string, rest: Result<Option<Record>, HttpError>)
    requires items != [] && NameMatches(items[0], wanted) == Some(false)
    requires rest.Success? && rest.value.Some? ==>
               exists k :: 0 <= k < |items[1..]| && items[1..][k] == Dict(rest.value.value) &&
                           NameMatches(items[1..][k], wanted) == Some(true) && MissesBefore(items[1..], wanted, k)
    requires rest.Failure? <==>
               exists k :: 0 <= k < |items[1..]| && NameMatches(items[1..][k], wanted).None? && MissesBefore(items[1..], wanted, k)
    ensures rest.Success? && rest.value.Some? ==>
              exists k :: 0 <= k < |items| && items[k] == Dict(rest.value.value) &&
                          NameMatches(items[k], wanted) == Some(true) && MissesBefore(items, wanted, k)
    ensures rest.Failure? <==> exists k :: 0 <= k < |items| && NameMatches(items[k], wanted).None? && MissesBefore(items, wanted, k)
  {
    var tail := items[1..];
    forall k | 0 <= k < |tail| && MissesBefore(tail, wanted, k) ensures MissesBefore(items, wanted, k + 1) {
      forall j | 0 <= j < k + 1 ensures NameMatches(items[j], wanted) == Some(false) {
        if j > 0 { assert items[j] == tail[j - 1]; }
      }
    }
    forall k | 0 < k < |items| && MissesBefore(items, wanted, k) ensures MissesBefore(tail, wanted, k - 1) {
      forall j | 0 <= j < k - 1 ensures NameMatches(tail[j], wanted) == Some(false) {
        assert tail[j] == items[j + 1];
      }
    }
    if rest.Success? && rest.value.Some? {
      var k :| 0 <= k < |tail| && tail[k] == Dict(rest.value.value) &&
               NameMatches(tail[k], wanted) == Some(true) && MissesBefore(tail, wanted, k);
      assert items[k + 1] == tail[k];
    }
    if rest.Failure? {
      var k :| 0 <= k < |tail| && NameMatches(tail[k], wanted).None? && MissesBefore(tail, wanted, k);
      assert items[k + 1] == tail[k];
    }
    if exists k :: 0 <= k < |items| && NameMatches(items[k], wanted).None? && MissesBefore(items, wanted, k) {
      var k :| 0 <= k < |items| && NameMatches(items[k], wanted).None? && MissesBefore(items, wanted, k);
      assert k > 0;
      assert tail[k - 1] == items[k];
    }
  }

  /** What the handler hands to the guide generator. */
  datatype GuideRequest = GuideRequest(profession: string, currentSkill: Value, targetSkill: int, characterGold: Value)

  /**
   * GET /{name}/{realm}/crafting-guide up to the call of the guide
   * generator: 404 for an unknown character, 404 when the character has
   * no such profession (compared ignoring case), otherwise the generator's
   * inputs.
   */
  function CraftingGuide(s: seq<Record>, name: string, realm: string, profession: string, targetSkill: int)
    : (r: Result<GuideRequest, HttpError>)
    requires Keyed(s)
    ensures Lookup(s, name, realm).None? ==> r == Failure(HttpError(404, "Character not found"))
  {
    match Lookup(s, name, realm)
    case None => Failure(HttpError(404, "Character not found"))
    case Some(ch) =>
      if "professions" !in ch then Failure(ServerError)
      else match Iterate(ch["professions"])
        case None => Failure(ServerError)
        case Some(items) =>
          match FindProfession(items, profession)
          case Failure(e) => Failure(e)
          case Success(None) => Failure(HttpError(404, "Character doesn't have " + profession))
          case Success(Some(prof)) =>
            if "skill_level" !in prof || "gold" !in ch then Failure(ServerError)
            else Success(GuideRequest(profession, prof["skill_level"], targetSkill, ch["gold"]))
  }

  /** Queries that differ only in letter case find the same profession. */
  lemma {:induction false} FindProfessionIgnoresCase(items: seq<Value>, p: string, q: string)
    requires Lower(p) == Lower(q)
    ensures FindProfession(items, p) == FindProfession(items, q)
    decreases |items|
  {
    if items != [] {
      assert NameMatches(items[0], p) == NameMatches(items[0], q);
      FindProfessionIgnoresCase(items[1..], p, q);
    }
  }

  /** Lower-casing twice is lower-casing once, so a query and its lower-case form are looked up alike. */
  lemma LowerIdempotent(s: string)
    ensures Lower(Lower(s)) == Lower(s)
  {
  }

  /**
   * For a character added through `add`, the crafting-guide lookup succeeds
   * exactly when one of its professions has that name up to case, and then
   * hands over the skill level of the first such profession and the
   * character's gold; otherwise it answers 404.
   */
  lemma {:induction false} CraftingGuideForAddedCharacter(s: seq<Record>, c: Character, profession: string, target: int)
    requires Keyed(s) && Lookup(s, c.name, c.realm).None?
    ensures var r := CraftingGuide(s + [CharacterDict(c)], c.name, c.realm, profession, target);
            && (r.Success? <==> exists k :: 0 <= k < |c.professions| && Lower(c.professions[k].name) == Lower(profession))
            && (r.Failure? ==> r.error == HttpError(404, "Character doesn't have " + profession))
            && (r.Success? ==> r.value.characterGold == Int(c.gold) && r.value.profession == profession &&
                               r.value.targetSkill == target)
            && (r.Success? ==> exists k :: FirstNamed(c.professions, profession, k) &&
                                           r.value.currentSkill == Int(c.professions[k].skillLevel))
  {
    var ch := CharacterDict(c);
    AddThenGet(s, c);
    assert "professions" in ch && ch["professions"] == List(ProfessionList(c.professions));
    assert "gold" in ch && ch["gold"] == Int(c.gold);
    GuideForRecord(s + [ch], c.name, c.realm, ch, c.professions, profession, target);
  }

  /** The crafting guide for a found record whose professions are a validated list. */
  lemma {:induction false} GuideForRecord(t: seq<Record>, name: string, realm: string, ch: Record, ps: seq<Profession>,
                       profession: string, target: int)
    requires Keyed(t) && Lookup(t, name, realm) == Some(ch)
    requires "professions" in ch && ch["professions"] == List(ProfessionList(ps)) && "gold" in ch
    ensures var r := CraftingGuide(t, name, realm, profession, target);
            && (r.Success? <==> exists k :: 0 <= k < |ps| && Lower(ps[k].name) == Lower(profession))
            && (r.Failure? ==> r.error == HttpError(404, "Character doesn't have " + profession))
            && (r.Success? ==> r.value.characterGold == ch["gold"] && r.value.profession == profession &&
                               r.value.targetSkill == target)
            && (r.Success? ==> exists k :: FirstNamed(ps, profession, k) &&
                                           r.value.currentSkill == Int(ps[k].skillLevel))
  {
    var items := ProfessionList(ps);
    FindProfessionInProfessionList(ps, profession);
    GuideOfFound(t, name, realm, ch, items, profession, target);
    var f := FindProfession(items, profession);
    if f.value.Some? {
      var k :| FirstNamed(ps, profession, k) && f.value.value == ProfessionDict(ps[k]);
      assert "skill_level" in f.value.value && f.value.value["skill_level"] == Int(ps[k].skillLevel);
    }
  }

  /** The guide request once the character is found and its professions are a list. */
  lemma {:induction false} GuideOfFound(t: seq<Record>, name: string, realm: string, ch: Record, items: seq<Value>,
                     profession: string, target: int)
    requires Keyed(t) && Lookup(t, name, realm) == Some(ch)
    requires "professions" in ch && ch["professions"] == List(items) && "gold" in ch
    ensures var f := FindProfession(items, profession);
            var r := CraftingGuide(t, name, realm, profession, target);
            && (f == Success(None) ==> r == Failure(HttpError(404, "Character doesn't have " + profession)))
            && (f.Success? && f.value.Some? && "skill_level" in f.value.value ==>
                  r == Success(GuideRequest(profession, f.value.value["skill_level"], target, ch["gold"])))
  {
    assert Iterate(ch["professions"]) == Some(items);
  }

  /** `ps[k]` is the first profession whose name equals `wanted` ignoring case. */
  predicate FirstNamed(ps: seq<Profession>, wanted: string, k: int)
  {
    && 0 <= k < |ps|
    && Lower(ps[k].name) == Lower(wanted)
    && forall j :: 0 <= j < k ==> Lower(ps[j].name) != Lower(wanted)
  }

  /**
   * Over the professions of a validated character, the lookup never fails,
   * finds a profession exactly when a name matches ignoring case, and finds
   * the first such one.
   */
  lemma {:induction false} FindProfessionInProfessionList(ps: seq<Profession>, profession: string)
    ensures var r := FindProfession(ProfessionList(ps), profession);
            && r.Success?
            && (r.value.Some? <==> exists k :: 0 <= k < |ps| && Lower(ps[k].name) == Lower(profession))
            && (r.value.Some? ==> exists k :: FirstNamed(ps, profession, k) && r.value.value == ProfessionDict(ps[k]))
  {
    var items := ProfessionList(ps);
    var r := FindProfession(items, profession);
    ProfessionNames(ps, profession);
    assert forall k :: 0 <= k < |items| ==> NameMatches(items[k], profession).Some?;
    assert r.Success?;
    if r.value.Some? {
      var k :| 0 <= k < |items| && items[k] == Dict(r.value.value) &&
               NameMatches(items[k], profession) == Some(true) && MissesBefore(items, profession, k);
      assert r.value.value == ProfessionDict(ps[k]);
      assert FirstNamed(ps, profession, k);
    } else {
      assert forall k :: 0 <= k < |items| ==> NameMatches(items[k], profession) == Some(false);
    }
  }

  /** Each item of a validated profession list has a string name: the profession's own. */
  lemma {:induction false} ProfessionNames(ps: seq<Profession>, profession: string)
    ensures forall k :: 0 <= k < |ps| ==>
              NameMatches(ProfessionList(ps)[k], profession) == Some(Lower(ps[k].name) == Lower(profession))
  {
    var items := ProfessionList(ps);
    forall k | 0 <= k < |ps| ensures NameMatches(items[k], profession) == Some(Lower(ps[k].name) == Lower(profession)) {
      var d := ProfessionDict(ps[k]);
      assert items[k] == Dict(d);
      assert "name" in d && d["name"] == Str(ps[k].name);
    }
  }
}
