/**
 * The subset of the ozzo-validation library that the submission validators use.
 *
 * A struct is validated field by field. Each field carries a list of rules that
 * are tried in order; the first rule that fails is that field's error. The
 * struct's error is a map from field name to error, in which a field named twice
 * keeps the error of its last failing entry. An empty map is success.
 *
 * `Required` rejects a zero value (the empty string, the integer 0); `In` and
 * `Date` accept a zero value and otherwise demand membership in the listed
 * literals or a successful parse with the layout.
 */
module Validation {
  import opened Wrappers
  import GoTime

  /** The values the validated structs hold: Go strings, ints and bools. */
  datatype Value = Text(s: string) | Number(n: int) | Flag(b: bool)

  /** The two layouts in use: "2006-01-02" and "2006-01-02T15:04:05". */
  datatype Layout = DateLayout | DateTimeLayout

  datatype Rule = Required | In(elements: seq<string>) | Date(layout: Layout)

  /**
   * One `validation.Field(&d.X, rules...)` entry: the field it points at, named
   * by its key, and the rules to try on it.
   */
  datatype Field<K> = Field(key: K, rules: seq<Rule>)

  /** ozzo's IsEmpty for the two kinds of value. */
  predicate IsEmpty(v: Value) {
    match v
    case Text(s) => s == ""
    case Number(n) => n == 0
    case Flag(b) => !b
  }

  predicate Parses(layout: Layout, s: string) {
    match layout
    case DateLayout => GoTime.ParseDate(s).Some?
    case DateTimeLayout => GoTime.ParseDateTime(s).Some?
  }

  /**
   * Whether one rule accepts a value. A number or a flag is never equal to a
   * string literal and is not a string for `Date`, so a non-zero one fails both.
   */
  predicate Passes(r: Rule, v: Value) {
    match r
    case Required => !IsEmpty(v)
    case In(elements) => IsEmpty(v) || (v.Text? && v.s in elements)
    case Date(layout) => IsEmpty(v) || (v.Text? && Parses(layout, v.s))
  }

  /** Rule i is the first of the list that rejects v. */
  predicate FirstFailingAt(v: Value, rules: seq<Rule>, i: int) {
    0 <= i < |rules| && !Passes(rules[i], v) && forall j :: 0 <= j < i ==> Passes(rules[j], v)
  }

  /** `validation.Validate(value, rules...)`: the first rule that fails, if any. */
  function FirstFailure(v: Value, rules: seq<Rule>): (r: Option<Rule>)
    ensures r.None? <==> forall i :: 0 <= i < |rules| ==> Passes(rules[i], v)
    ensures r.Some? ==> exists i :: FirstFailingAt(v, rules, i) && rules[i] == r.value
  {
    if rules == [] then None
    else if !Passes(rules[0], v) then
      assert FirstFailingAt(v, rules, 0);
      Some(rules[0])
    else
      var r := FirstFailure(v, rules[1..]);
      if r.Some? then
        var i :| FirstFailingAt(v, rules[1..], i) && rules[1..][i] == r.value;
        assert FirstFailingAt(v, rules, i + 1);
        r
      else r
  }

  /** Entry i of the field list fails one of its rules on the struct whose fields are read by `value`. */
  predicate FailsAt<K>(value: K -> Value, fs: seq<Field<K>>, i: int) {
    0 <= i < |fs| && FirstFailure(value(fs[i].key), fs[i].rules).Some?
  }

  /**
   * `validation.ValidateStruct`: the map from field name to that field's error,
   * for the struct whose field under key k holds `value(k)`.
   */
  function ValidateStruct<K(!new)>(value: K -> Value, fs: seq<Field<K>>): (errs: map<K, Rule>)
    ensures forall k :: k in errs <==> exists i :: FailsAt(value, fs, i) && fs[i].key == k
  {
    if fs == [] then map[]
    else
      var n := |fs| - 1;
      var prior := ValidateStruct(value, fs[..n]);
      var last := fs[n];
      assert forall i :: FailsAt(value, fs[..n], i) <==> 0 <= i < n && FailsAt(value, fs, i);
      match FirstFailure(value(last.key), last.rules)
      case None => prior
      case Some(r) => prior[last.key := r]
  }

  /** The entry at index j, taken out of the list. */
  function Without<T>(s: seq<T>, j: nat): (r: seq<T>)
    requires j < |s|
    ensures |r| == |s| - 1
    ensures forall i :: 0 <= i < j ==> r[i] == s[i]
    ensures forall i :: j <= i < |r| ==> r[i] == s[i + 1]
  {
    s[..j] + s[j + 1..]
  }

  /** The last failing entry for a key decides that key's error. */
  lemma {:induction false} LastFailureWins<K(!new)>(value: K -> Value, fs: seq<Field<K>>, i: nat)
    requires FailsAt(value, fs, i)
    requires forall j :: i < j < |fs| ==> fs[j].key != fs[i].key
    ensures fs[i].key in ValidateStruct(value, fs)
    ensures ValidateStruct(value, fs)[fs[i].key] == FirstFailure(value(fs[i].key), fs[i].rules).value
  {
    var n := |fs| - 1;
    var k := fs[i].key;
    var q := fs[..n];
    var prior := ValidateStruct(value, q);
    match FirstFailure(value(fs[n].key), fs[n].rules)
    case None =>
      assert ValidateStruct(value, fs) == prior;
      assert i < n;
      assert q[i] == fs[i];
      LastFailureWins(value, q, i);
    case Some(r) =>
      assert ValidateStruct(value, fs) == prior[fs[n].key := r];
      if i < n {
        assert q[i] == fs[i] && fs[n].key != k;
        LastFailureWins(value, q, i);
        assert k in prior && prior[k] == FirstFailure(value(k), fs[i].rules).value;
      }
  }

  /** A last entry that repeats an earlier entry for the same field, with none in between, changes nothing. */
  lemma LastRepeatIsRedundant<K(!new)>(value: K -> Value, fs: seq<Field<K>>, i: nat)
    requires i < |fs| - 1 && fs[i] == fs[|fs| - 1]
    requires forall k :: i < k < |fs| - 1 ==> fs[k].key != fs[i].key
    ensures ValidateStruct(value, fs[..|fs| - 1]) == ValidateStruct(value, fs)
  {
    var n := |fs| - 1;
    var q := fs[..n];
    match FirstFailure(value(fs[n].key), fs[n].rules)
    case None =>
    case Some(r) =>
      assert q[i] == fs[i];
      LastFailureWins(value, q, i);
      var m := ValidateStruct(value, q);
      assert fs[n].key in m && m[fs[n].key] == r;
      UpdateWithSameValue(m, fs[n].key);
  }

  /** Storing again the value a key already has leaves the map as it was. */
  lemma UpdateWithSameValue<K, V>(m: map<K, V>, k: K)
    requires k in m
    ensures m[k := m[k]] == m
  {
  }

  /**
   * A field entry that repeats an earlier entry, with no entry for the same
   * field in between, does not change the result: it fails exactly when the
   * earlier one does, and with the same rule.
   */
  lemma {:induction false} RepeatedFieldIsRedundant<K(!new)>(value: K -> Value, fs: seq<Field<K>>, i: nat, j: nat)
    requires i < j < |fs| && fs[i] == fs[j]
    requires forall k :: i < k < j ==> fs[k].key != fs[j].key
    ensures ValidateStruct(value, Without(fs, j)) == ValidateStruct(value, fs)
  {
    var n := |fs| - 1;
    var q := fs[..n];
    var w := Without(fs, j);
    if j == n {
      assert w == q;
      LastRepeatIsRedundant(value, fs, i);
    } else {
      assert q[i] == fs[i] && q[j] == fs[j];
      RepeatedFieldIsRedundant(value, q, i, j);
      assert w[..|w| - 1] == Without(q, j) && w[|w| - 1] == fs[n];
    }
  }
}
