/**
  Password generation (src/process/password_generate.rs): one mandatory
  character from each enabled class, the rest drawn from the pool of all
  enabled classes, then a shuffle. Every random choice is nondeterministic
  (`:|`), so the contracts hold whatever the random source returns.
*/
module PasswordGenerate {
  import opened Wrappers

  /** The class alphabets of src/cli/password.rs. */
  const UpperCase: string := "ABCDEFGHIJKLMNOPQRSTUVWXYZ"
  const LowerCase: string := "abcdefghijklmnopqrstuvwxyz"
  const Digits: string := "0123456789"
  const Symbols: string := "!@#$%^&*()_+-=[]{}|;:,.<>?"

  datatype PasswordError =
    | ZeroLength                              // "Password length cannot be zero"
    | TooShort(length: nat, required: nat)    // length below the number of enabled classes
    | EmptyPool                               // the `expect("char pool won't be empty")` panic

  /** The alphabets of the enabled classes, in the order the source visits them. */
  function EnabledClasses(uppercase: bool, lowercase: bool, digits: bool, symbols: bool): seq<string> {
    (if uppercase then [UpperCase] else [])
    + (if lowercase then [LowerCase] else [])
    + (if digits then [Digits] else [])
    + (if symbols then [Symbols] else [])
  }

  /** The alphabets of `classes`, concatenated in order. */
  function Concat(classes: seq<string>): string {
    if classes == [] then "" else Concat(classes[..|classes| - 1]) + classes[|classes| - 1]
  }

  /** The character pool: the enabled alphabets, concatenated. */
  function Pool(uppercase: bool, lowercase: bool, digits: bool, symbols: bool): string {
    Concat(EnabledClasses(uppercase, lowercase, digits, symbols))
  }

  /** `chars` holds exactly one character of each class, in class order. */
  predicate OnePerClass(chars: seq<char>, classes: seq<string>) {
    && |chars| == |classes|
    && forall i :: 0 <= i < |classes| ==> chars[i] in classes[i]
  }

  /** Some character of `password` belongs to `alphabet`. */
  predicate Covers(password: string, alphabet: string) {
    exists k :: 0 <= k < |password| && password[k] in alphabet
  }

  /**
    `SliceRandom::shuffle`: for i from the last index down to 1, swap element
    i with a uniformly chosen element at or below it. Only reorders.
  */
  method Shuffle(a: array<char>)
    modifies a
    ensures multiset(a[..]) == old(multiset(a[..]))
  {
    var i := a.Length;
    while i > 1
      invariant 0 <= i <= a.Length
      invariant multiset(a[..]) == old(multiset(a[..]))
    {
      i := i - 1;
      var j :| 0 <= j <= i;
      a[i], a[j] := a[j], a[i];
    }
  }

  lemma SplitAt(s: seq<char>, n: nat)
    requires n <= |s|
    ensures s == s[..n] + s[n..]
  {
  }

  /** The `Vec<char>` shuffled in place, then collected into a `String`. */
  method ShuffleVec(chars: seq<char>) returns (shuffled: string)
    ensures multiset(shuffled) == multiset(chars)
  {
    var a := new char[|chars|](k requires 0 <= k < |chars| => chars[k]);
    assert a[..] == chars;
    Shuffle(a);
    shuffled := a[..];
  }

  /**
    What a successful run establishes before the shuffle's result is read back:
    one mandatory character per class, filler from the pool, and the password a
    permutation of the two.
  */
  ghost predicate Assembled(password: string, required: string, filler: string, classes: seq<string>, pool: string) {
    && |required| == |classes|
    && (forall i :: 0 <= i < |classes| ==> required[i] in classes[i])
    && (forall k :: 0 <= k < |filler| ==> filler[k] in pool)
    && multiset(password) == multiset(required + filler)
  }

  /** Every class alphabet is part of the pool. */
  ghost predicate ClassesInPool(classes: seq<string>, pool: string) {
    forall i, ch :: 0 <= i < |classes| && ch in classes[i] ==> ch in pool
  }

  /** An assembled password draws only on the pool and covers every class. */
  lemma {:induction false} AssembledProperties(password: string, required: string, filler: string, classes: seq<string>, pool: string)
    requires Assembled(password, required, filler, classes, pool)
    requires ClassesInPool(classes, pool)
    ensures |password| == |classes| + |filler|
    ensures forall k :: 0 <= k < |password| ==> password[k] in pool
    ensures forall i :: 0 <= i < |classes| ==> Covers(password, classes[i])
  {
    calc {
      |password|;
      |multiset(password)|;
      |multiset(required + filler)|;
      |required + filler|;
    }
    forall k | 0 <= k < |password|
      ensures password[k] in pool
    {
      var ch := password[k];
      assert ch in multiset(required + filler);
      assert ch in required + filler;
      var m :| 0 <= m < |required + filler| && (required + filler)[m] == ch;
      if m < |required| {
        assert required[m] in classes[m];
      } else {
        assert filler[m - |required|] == ch;
      }
    }
    forall i | 0 <= i < |classes|
      ensures Covers(password, classes[i])
    {
      assert (required + filler)[i] == required[i];
      assert required[i] in multiset(password);
      var k :| 0 <= k < |password| && password[k] == required[i];
    }
  }

  /** Every alphabet of `classes` is part of their concatenation. */
  lemma {:induction false} ConcatContainsClasses(classes: seq<string>)
    ensures ClassesInPool(classes, Concat(classes))
  {
    if classes != [] {
      var init := classes[..|classes| - 1];
      ConcatContainsClasses(init);
      forall i, ch | 0 <= i < |classes| && ch in classes[i]
        ensures ch in Concat(classes)
      {
        if i < |init| {
          assert init[i] == classes[i];
          assert ch in Concat(init);
        }
      }
    }
  }

  /** The flags' alphabets are exactly where `EnabledClasses` puts them, all inside the pool. */
  lemma EnabledClassesInPool(uppercase: bool, lowercase: bool, digits: bool, symbols: bool)
    ensures ClassesInPool(EnabledClasses(uppercase, lowercase, digits, symbols), Pool(uppercase, lowercase, digits, symbols))
    ensures var classes := EnabledClasses(uppercase, lowercase, digits, symbols);
      && (uppercase ==> UpperCase in classes)
      && (lowercase ==> LowerCase in classes)
      && (digits ==> Digits in classes)
      && (symbols ==> Symbols in classes)
      && |classes| == (if uppercase then 1 else 0) + (if lowercase then 1 else 0)
                      + (if digits then 1 else 0) + (if symbols then 1 else 0)
  {
    ConcatContainsClasses(EnabledClasses(uppercase, lowercase, digits, symbols));
  }

  /**
    One `if <class> { push_str; push(choose) }` block of the source: when the
    class is enabled, its alphabet joins the pool and one of its characters
    joins the mandatory ones.
  */
  method TakeClass(enabled: bool, alphabet: string, charPool: string, requireChars: seq<char>, ghost classes: seq<string>)
    returns (pool: string, chars: seq<char>, ghost classes': seq<string>)
    requires |alphabet| > 0
    requires OnePerClass(requireChars, classes)
    requires charPool == Concat(classes)
    ensures pool == Concat(classes')
    ensures classes' == classes + (if enabled then [alphabet] else [])
    ensures OnePerClass(chars, classes')
    ensures pool == charPool + (if enabled then alphabet else "")
    ensures |chars| == |requireChars| + (if enabled then 1 else 0)
    ensures chars[..|requireChars|] == requireChars
    ensures enabled ==> chars[|requireChars|] in alphabet
    ensures !enabled ==> chars == requireChars
  {
    pool, chars, classes' := charPool, requireChars, classes;
    if enabled {
      pool := charPool + alphabet;
      assert alphabet[0] in alphabet;
      var ch :| ch in alphabet;
      chars := requireChars + [ch];
      classes' := classes + [alphabet];
      assert classes'[..|classes'| - 1] == classes;
    }
  }

  /**
    The four class blocks of `password_gen`: the pool is the concatenation of
    the enabled alphabets, and the mandatory characters hold one character of
    each enabled class, in class order.
  */
  method CollectClasses(uppercase: bool, lowercase: bool, digits: bool, symbols: bool)
    returns (pool: string, chars: seq<char>)
    ensures pool == Pool(uppercase, lowercase, digits, symbols)
    ensures OnePerClass(chars, EnabledClasses(uppercase, lowercase, digits, symbols))
  {
    ghost var classes: seq<string> := [];
    pool, chars := "", [];
    pool, chars, classes := TakeClass(uppercase, UpperCase, pool, chars, classes);
    pool, chars, classes := TakeClass(lowercase, LowerCase, pool, chars, classes);
    pool, chars, classes := TakeClass(digits, Digits, pool, chars, classes);
    pool, chars, classes := TakeClass(symbols, Symbols, pool, chars, classes);
    assert classes == EnabledClasses(uppercase, lowercase, digits, symbols);
  }

  /**
    `password_gen`. On success the password has `length` characters, all from
    the pool, at least one from each enabled class, and it is a permutation of
    the mandatory characters (`required`, one per enabled class) followed by
    the filler characters (`filler`, drawn from the pool).
  */
  method PasswordGen(length: nat, uppercase: bool, lowercase: bool, digits: bool, symbols: bool)
    returns (r: Result<string, PasswordError>, ghost required: string, ghost filler: string)
    ensures var classes := EnabledClasses(uppercase, lowercase, digits, symbols);
      && (length == 0 ==> r == Failure(ZeroLength))
      && (0 < length < |classes| ==> r == Failure(TooShort(length, |classes|)))
      && (0 < length && classes == [] ==> r == Failure(EmptyPool))
      && (r.Success? <==> 0 < |classes| <= length)
    ensures r.Success? ==> |r.value| == length
    ensures r.Success? ==> forall k :: 0 <= k < |r.value| ==> r.value[k] in Pool(uppercase, lowercase, digits, symbols)
    ensures r.Success? ==> forall i :: 0 <= i < |EnabledClasses(uppercase, lowercase, digits, symbols)| ==>
      Covers(r.value, EnabledClasses(uppercase, lowercase, digits, symbols)[i])
    ensures r.Success? ==>
      && Assembled(r.value, required, filler, EnabledClasses(uppercase, lowercase, digits, symbols),
                   Pool(uppercase, lowercase, digits, symbols))
      && |filler| == length - |required|
  {
    required, filler := [], [];
    if length == 0 {
      return Failure(ZeroLength), required, filler;
    }

    var charPool, requireChars := CollectClasses(uppercase, lowercase, digits, symbols);
    ghost var classes := EnabledClasses(uppercase, lowercase, digits, symbols);
    ConcatContainsClasses(classes);

    if length < |requireChars| {
      return Failure(TooShort(length, |requireChars|)), required, filler;
    }

    var remindLength := length - |requireChars|;
    required := requireChars;
    for n := 0 to remindLength
      invariant |requireChars| == |required| + n
      invariant requireChars[..|required|] == required
      invariant forall k :: |required| <= k < |requireChars| ==> requireChars[k] in charPool
      invariant charPool == [] ==> n == 0
    {
      if charPool == [] {
        return Failure(EmptyPool), required, filler;
      }
      assert charPool[0] in charPool;
      var ch :| ch in charPool;
      requireChars := requireChars + [ch];
    }
    filler := requireChars[|required|..];
    SplitAt(requireChars, |required|);

    var password := ShuffleVec(requireChars);
    r := Success(password);
    AssembledProperties(r.value, required, filler, classes, charPool);
    assert charPool == Pool(uppercase, lowercase, digits, symbols);
  }

  /** The same coverage, stated per flag. */
  lemma CoversEveryEnabledClass(password: string, uppercase: bool, lowercase: bool, digits: bool, symbols: bool)
    requires forall i :: 0 <= i < |EnabledClasses(uppercase, lowercase, digits, symbols)| ==>
      Covers(password, EnabledClasses(uppercase, lowercase, digits, symbols)[i])
    ensures uppercase ==> Covers(password, UpperCase)
    ensures lowercase ==> Covers(password, LowerCase)
    ensures digits ==> Covers(password, Digits)
    ensures symbols ==> Covers(password, Symbols)
  {
    EnabledClassesInPool(uppercase, lowercase, digits, symbols);
  }
}
