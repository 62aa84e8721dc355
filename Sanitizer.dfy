/**
 * The key filter applied to every datalayer batch before it is relayed
 * (`sanitizeDataLayer` in api/collect-datalayer.js).
 *
 * A record is the list of its entries `(key, value)` in the order that
 * `Object.entries` yields them and `Object.fromEntries` rebuilds them.
 * Values are never inspected, so their type is a parameter.
 */
module Sanitizer {
  import opened Options

  /**
   * A record's keys are distinct by construction, since `Object.entries` never
   * yields a key twice; `Lookup` below relies on this when it reads the first
   * entry for a key as the object's value for it.
   */
  type Record<V> = seq<(string, V)>

  /** The field names that are dropped, compared against the key's lower-case form. */
  const SensitiveKeys: seq<string> :=
    ["email", "nome", "cpf", "phone", "telefone", "endereco", "address"]

  /** Lower-case form of one character (ASCII letters only). */
  function LowerChar(c: char): char
  {
    if 'A' <= c <= 'Z' then (c as int + ('a' as int - 'A' as int)) as char else c
  }

  /** Stand-in for `String.prototype.toLowerCase`, restricted to ASCII letters. */
  function ToLower(s: string): (r: string)
    ensures |r| == |s|
    ensures forall i :: 0 <= i < |s| ==> r[i] == LowerChar(s[i])
    ensures forall i :: 0 <= i < |r| ==> !('A' <= r[i] <= 'Z')
  {
    if s == [] then [] else [LowerChar(s[0])] + ToLower(s[1..])
  }

  /** The seven names are already in lower-case form, so each of them can match. */
  lemma {:induction false} SensitiveKeysAreLowerCase()
    ensures |SensitiveKeys| == 7
    ensures forall i :: 0 <= i < |SensitiveKeys| ==> ToLower(SensitiveKeys[i]) == SensitiveKeys[i]
  {
    forall i | 0 <= i < |SensitiveKeys|
      ensures ToLower(SensitiveKeys[i]) == SensitiveKeys[i]
    {
      var s := SensitiveKeys[i];
      forall j | 0 <= j < |s|
        ensures LowerChar(s[j]) == s[j]
      {
        assert 'a' <= s[j] <= 'z';
      }
    }
  }

  predicate IsSensitive(key: string)
  {
    ToLower(key) in SensitiveKeys
  }

  /** A key is sensitive exactly when it equals one of the listed names up to letter case. */
  lemma IsSensitiveMeansListedUpToCase(key: string)
    ensures IsSensitive(key) <==> exists s :: s in SensitiveKeys && |s| == |key| &&
                                    forall i :: 0 <= i < |key| ==> LowerChar(key[i]) == s[i]
  {
    var lower := ToLower(key);
    if !IsSensitive(key) {
      forall s | s in SensitiveKeys && |s| == |key|
        ensures exists i :: 0 <= i < |key| && LowerChar(key[i]) != s[i]
      {
        assert s != lower;
        var i :| 0 <= i < |key| && s[i] != lower[i];
      }
    }
  }

  /** Keys are unique within a record, as they are in a JavaScript object. */
  ghost predicate DistinctKeys<V>(r: Record<V>)
  {
    forall i, j :: 0 <= i < j < |r| ==> r[i].0 != r[j].0
  }

  /** The value stored under `key`: the first entry with that key, if any. */
  function Lookup<V>(r: Record<V>, key: string): Option<V>
  {
    if r == [] then None
    else if r[0].0 == key then Some(r[0].1)
    else Lookup(r[1..], key)
  }

  /** One record with its sensitive entries filtered out. */
  function SanitizeRecord<V>(r: Record<V>): (s: Record<V>)
    ensures |s| <= |r|
    ensures forall i :: 0 <= i < |s| ==> s[i] in r && !IsSensitive(s[i].0)
    ensures forall j :: 0 <= j < |r| && !IsSensitive(r[j].0) ==> r[j] in s
  {
    if r == [] then []
    else if IsSensitive(r[0].0) then SanitizeRecord(r[1..])
    else [r[0]] + SanitizeRecord(r[1..])
  }

  /** The whole batch, record by record. */
  function Sanitize<V>(batch: seq<Record<V>>): (out: seq<Record<V>>)
    ensures |out| == |batch|
    ensures forall i :: 0 <= i < |batch| ==> out[i] == SanitizeRecord(batch[i])
    ensures forall i, j :: 0 <= i < |out| && 0 <= j < |out[i]| ==> !IsSensitive(out[i][j].0)
  {
    if batch == [] then [] else [SanitizeRecord(batch[0])] + Sanitize(batch[1..])
  }

  /** Every index of `g` moved up by one. */
  function Shift(g: seq<nat>): (h: seq<nat>)
    ensures |h| == |g|
    ensures forall i :: 0 <= i < |g| ==> h[i] == g[i] + 1
  {
    seq(|g|, i requires 0 <= i < |g| => g[i] + 1)
  }

  lemma ShiftMembership(g: seq<nat>, j: nat)
    ensures j in Shift(g) <==> 0 < j && j - 1 in g
  {
    var h := Shift(g);
    if j in h {
      var i :| 0 <= i < |h| && h[i] == j;
      assert g[i] == j - 1;
    }
    if 0 < j && j - 1 in g {
      var i :| 0 <= i < |g| && g[i] == j - 1;
      assert h[i] == j;
    }
  }

  /** The input positions that `SanitizeRecord` keeps, in increasing order. */
  ghost function KeptIndices<V>(r: Record<V>): seq<nat>
  {
    if r == [] then []
    else if IsSensitive(r[0].0) then Shift(KeptIndices(r[1..]))
    else [0] + Shift(KeptIndices(r[1..]))
  }

  lemma {:induction false} KeptIndicesSelect<V>(r: Record<V>)
    ensures |KeptIndices(r)| == |SanitizeRecord(r)|
    ensures forall i :: 0 <= i < |KeptIndices(r)| ==>
      KeptIndices(r)[i] < |r| && SanitizeRecord(r)[i] == r[KeptIndices(r)[i]]
  {
    if r != [] {
      KeptIndicesSelect(r[1..]);
      var g, rest := KeptIndices(r[1..]), SanitizeRecord(r[1..]);
      var f, h := KeptIndices(r), Shift(g);
      if IsSensitive(r[0].0) {
        forall i | 0 <= i < |f|
          ensures f[i] < |r| && SanitizeRecord(r)[i] == r[f[i]]
        {
          assert rest[i] == r[1..][g[i]];
        }
      } else {
        assert SanitizeRecord(r) == [r[0]] + rest;
        forall i | 0 <= i < |f|
          ensures f[i] < |r| && SanitizeRecord(r)[i] == r[f[i]]
        {
          if 0 < i {
            assert f[i] == h[i - 1] == g[i - 1] + 1;
            assert rest[i - 1] == r[1..][g[i - 1]];
          }
        }
      }
    }
  }

  lemma {:induction false} KeptIndicesIncreasing<V>(r: Record<V>)
    ensures forall i, j :: 0 <= i < j < |KeptIndices(r)| ==> KeptIndices(r)[i] < KeptIndices(r)[j]
  {
    if r != [] {
      KeptIndicesIncreasing(r[1..]);
      var g := KeptIndices(r[1..]);
      var f, h := KeptIndices(r), Shift(g);
      if IsSensitive(r[0].0) {
        forall i, j | 0 <= i < j < |f|
          ensures f[i] < f[j]
        {
          assert f[i] == g[i] + 1 && f[j] == g[j] + 1;
        }
      } else {
        forall i, j | 0 <= i < j < |f|
          ensures f[i] < f[j]
        {
          assert f[j] == h[j - 1];
          if 0 < i {
            assert f[i] == h[i - 1];
            assert g[i - 1] < g[j - 1];
          }
        }
      }
    }
  }

  lemma {:induction false} KeptIndicesExact<V>(r: Record<V>)
    ensures forall j :: 0 <= j < |r| ==> (!IsSensitive(r[j].0) <==> j in KeptIndices(r))
  {
    if r != [] {
      KeptIndicesExact(r[1..]);
      var g := KeptIndices(r[1..]);
      var f, h := KeptIndices(r), Shift(g);
      forall j | 0 <= j < |r|
        ensures !IsSensitive(r[j].0) <==> j in f
      {
        ShiftMembership(g, j);
        if 0 < j {
          assert r[j] == r[1..][j - 1];
        }
      }
    }
  }

  /**
   * The kept entries are exactly the non-sensitive ones, in their original order:
   * `f` maps each output position to the input position it came from, is strictly
   * increasing, and hits precisely the input positions whose key is not sensitive.
   */
  lemma SanitizeRecordOrder<V>(r: Record<V>) returns (f: seq<nat>)
    ensures |f| == |SanitizeRecord(r)|
    ensures forall i :: 0 <= i < |f| ==> f[i] < |r| && SanitizeRecord(r)[i] == r[f[i]]
    ensures forall i, j :: 0 <= i < j < |f| ==> f[i] < f[j]
    ensures forall j :: 0 <= j < |r| ==> (!IsSensitive(r[j].0) <==> j in f)
  {
    KeptIndicesSelect(r);
    KeptIndicesIncreasing(r);
    KeptIndicesExact(r);
    f := KeptIndices(r);
  }

  /** Filtering keeps keys unique. */
  lemma {:induction false} SanitizeRecordKeepsDistinctKeys<V>(r: Record<V>)
    requires DistinctKeys(r)
    ensures DistinctKeys(SanitizeRecord(r))
  {
    var f := SanitizeRecordOrder(r);
    var s := SanitizeRecord(r);
    forall i, j | 0 <= i < j < |s|
      ensures s[i].0 != s[j].0
    {
      assert s[i] == r[f[i]] && s[j] == r[f[j]] && f[i] < f[j];
    }
  }

  /** Viewed as a map, the sanitized record is the input with every sensitive key removed. */
  lemma {:induction false} SanitizeRecordLookup<V>(r: Record<V>, key: string)
    ensures Lookup(SanitizeRecord(r), key) == if IsSensitive(key) then None else Lookup(r, key)
  {
    if r != [] {
      SanitizeRecordLookup(r[1..], key);
      if !IsSensitive(r[0].0) {
        assert SanitizeRecord(r) == [r[0]] + SanitizeRecord(r[1..]);
        assert ([r[0]] + SanitizeRecord(r[1..]))[1..] == SanitizeRecord(r[1..]);
      }
    }
  }

  lemma {:induction false} SanitizeRecordIdempotent<V>(r: Record<V>)
    ensures SanitizeRecord(SanitizeRecord(r)) == SanitizeRecord(r)
  {
    if r != [] {
      SanitizeRecordIdempotent(r[1..]);
      if !IsSensitive(r[0].0) {
        var rest := SanitizeRecord(r[1..]);
        assert ([r[0]] + rest)[1..] == rest;
      }
    }
  }

  /** Sanitizing an already sanitized batch changes nothing. */
  lemma SanitizeIdempotent<V>(batch: seq<Record<V>>)
    ensures Sanitize(Sanitize(batch)) == Sanitize(batch)
  {
    var once := Sanitize(batch);
    forall i | 0 <= i < |once|
      ensures Sanitize(once)[i] == once[i]
    {
      SanitizeRecordIdempotent(batch[i]);
    }
  }

  /** Sensitivity ignores letter case: keys that agree once lower-cased are treated alike. */
  lemma SensitivityIgnoresCase(k1: string, k2: string)
    requires |k1| == |k2|
    requires forall i :: 0 <= i < |k1| ==> LowerChar(k1[i]) == LowerChar(k2[i])
    ensures IsSensitive(k1) <==> IsSensitive(k2)
  {
    assert ToLower(k1) == ToLower(k2);
  }

  /** A click event loses its e-mail field and keeps everything else. */
  lemma ClickEventExample()
    ensures Sanitize([[("event", "click"), ("email", "a@b.com")]]) == [[("event", "click")]]
  {
    var r := [("event", "click"), ("email", "a@b.com")];
    assert ToLower("email") == "email";
    assert IsSensitive("email");
    assert SanitizeRecord(r[1..]) == [];
    assert !IsSensitive("event") by { assert ToLower("event")[0] == 'e'; }
    assert SanitizeRecord(r) == [("event", "click")];
  }

  /** Upper- and mixed-case spellings of a sensitive name are dropped too. */
  lemma MixedCaseExample()
    ensures IsSensitive("Email") && IsSensitive("CPF")
  {
    assert LowerChar('E') == 'e';
    assert ToLower("Email") == "email";
    assert LowerChar('C') == 'c' && LowerChar('P') == 'p' && LowerChar('F') == 'f';
    assert ToLower("CPF") == "cpf";
  }
}
