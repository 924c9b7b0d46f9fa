/**
 The configuration resolver of the maintenance interceptor: an immutable
 `Settings` value built from the defaults by applying an ordered list of
 options, each of which overwrites one field (last write wins).
 */
module Options {

  /** The pluggable global predicate: true while the whole server is under maintenance. */
  type MaintenanceFunc = () -> bool

  /** The resolved configuration shared, read-only, by every call. */
  datatype Settings = Settings(maintenanceFunc: MaintenanceFunc, message: string)

  /** The two configuration options; each stands for the mutator its Go constructor returns. */
  datatype Option =
    | WithAlwaysMaintenance
    | WithMessage(message: string)

  /** The default refusal text. Its wording is not relied upon, only that it is not empty. */
  const DefaultMessage: string := "メンテナンス中です。しばらく待ってから再度アクセスをお願いします。"

  /** The default global predicate: the server is never under maintenance. */
  function AlwaysAvailable(): (b: bool)
  {
    false
  }

  /** The settings every resolution starts from. */
  function Defaults(): (d: Settings)
    ensures !d.maintenanceFunc()
    ensures d.message == DefaultMessage && |d.message| > 0
  {
    Settings(AlwaysAvailable, DefaultMessage)
  }

  /** Runs one option's mutator on the settings under construction. Each option
      writes exactly one field and leaves the other as it was. */
  function Apply(s: Settings, o: Option): (r: Settings)
    ensures o.WithAlwaysMaintenance? ==> r.maintenanceFunc() && r.message == s.message
    ensures o.WithMessage? ==> r.message == o.message && r.maintenanceFunc == s.maintenanceFunc
  {
    match o
    case WithAlwaysMaintenance => s.(maintenanceFunc := () => true)
    case WithMessage(m) => s.(message := m)
  }

  /** Applies the options to `s` strictly left to right. The predicate ends up
      holding exactly when it held before or some option forces maintenance,
      and is the original one, untouched, when none does; options that do not
      set the message leave it as it was. */
  function ApplyAll(s: Settings, opts: seq<Option>): (r: Settings)
    ensures r.maintenanceFunc() <==> s.maintenanceFunc() || WithAlwaysMaintenance in opts
    ensures WithAlwaysMaintenance !in opts ==> r.maintenanceFunc == s.maintenanceFunc
    ensures NoMessage(opts) ==> r.message == s.message
    decreases |opts|
  {
    if |opts| == 0 then s
    else
      assert opts == [opts[0]] + opts[1..];
      ApplyAll(Apply(s, opts[0]), opts[1..])
  }

  /** The resolved settings for a list of options: the defaults, then every
      option in order. The predicate is constant true exactly when some option
      forces maintenance and is `AlwaysAvailable` otherwise; the message is the
      last message option's text, or the default one when there is none. */
  function BuildOptions(opts: seq<Option>): (o: Settings)
    ensures o.maintenanceFunc() <==> WithAlwaysMaintenance in opts
    ensures WithAlwaysMaintenance !in opts ==> o.maintenanceFunc == AlwaysAvailable
    ensures NoMessage(opts) ==> o.message == DefaultMessage
    ensures forall i | IsLastMessage(opts, i) :: o.message == opts[i].message
  {
    assert forall i | IsLastMessage(opts, i) :: ApplyAll(Defaults(), opts).message == opts[i].message by {
      forall i | IsLastMessage(opts, i)
        ensures ApplyAll(Defaults(), opts).message == opts[i].message
      {
        ApplyAllMessageLast(Defaults(), opts, i);
      }
    }
    ApplyAll(Defaults(), opts)
  }

  /** `i` is the position of the last message option in `opts`. */
  predicate IsLastMessage(opts: seq<Option>, i: int)
  {
    && 0 <= i < |opts|
    && opts[i].WithMessage?
    && forall j | i < j < |opts| :: !opts[j].WithMessage?
  }

  /** No option in `opts` sets the message. */
  predicate NoMessage(opts: seq<Option>)
  {
    forall j | 0 <= j < |opts| :: !opts[j].WithMessage?
  }

  /** The Go loop over the options, step by step: it computes the same settings
      as the fold, and the resolved predicate and message are the ones the
      option list calls for. */
  method BuildOptionsLoop(opts: seq<Option>) returns (o: Settings)
    ensures o == BuildOptions(opts)
    ensures o.maintenanceFunc() <==> WithAlwaysMaintenance in opts
    ensures NoMessage(opts) ==> o.message == DefaultMessage
    ensures forall i | IsLastMessage(opts, i) :: o.message == opts[i].message
  {
    o := Defaults();
    for k := 0 to |opts|
      invariant o == ApplyAll(Defaults(), opts[..k])
    {
      ApplyAllSnoc(Defaults(), opts[..k], opts[k]);
      assert opts[..k + 1] == opts[..k] + [opts[k]];
      o := Apply(o, opts[k]);
    }
    assert opts[..|opts|] == opts;
  }

  /** Folding over a concatenation is folding over each part in turn. */
  lemma {:induction false} ApplyAllAppend(s: Settings, a: seq<Option>, b: seq<Option>)
    ensures ApplyAll(s, a + b) == ApplyAll(ApplyAll(s, a), b)
    decreases |a|
  {
    if |a| == 0 {
      assert a + b == b;
    } else {
      assert (a + b)[1..] == a[1..] + b;
      ApplyAllAppend(Apply(s, a[0]), a[1..], b);
    }
  }

  /** Appending one option applies it after all the others. */
  lemma ApplyAllSnoc(s: Settings, a: seq<Option>, o: Option)
    ensures ApplyAll(s, a + [o]) == Apply(ApplyAll(s, a), o)
  {
    ApplyAllAppend(s, a, [o]);
    assert ApplyAll(ApplyAll(s, a), [o]) == ApplyAll(Apply(ApplyAll(s, a), o), []);
  }

  /** The last message option decides the message, whatever came before it. */
  lemma {:induction false} ApplyAllMessageLast(s: Settings, opts: seq<Option>, i: int)
    requires IsLastMessage(opts, i)
    ensures ApplyAll(s, opts).message == opts[i].message
    decreases |opts|
  {
    if i == 0 {
      assert NoMessage(opts[1..]) by {
        forall j | 0 <= j < |opts[1..]|
          ensures !opts[1..][j].WithMessage?
        {
          assert opts[1..][j] == opts[j + 1];
        }
      }
    } else {
      assert IsLastMessage(opts[1..], i - 1) by {
        forall j | i - 1 < j < |opts[1..]|
          ensures !opts[1..][j].WithMessage?
        {
          assert opts[1..][j] == opts[j + 1];
        }
      }
      ApplyAllMessageLast(Apply(s, opts[0]), opts[1..], i - 1);
    }
  }

  /** With no options the resolved settings are the defaults: never under maintenance, default message. */
  lemma BuildOptionsEmpty()
    ensures !BuildOptions([]).maintenanceFunc()
    ensures BuildOptions([]).message == DefaultMessage
  {
  }

  /** Two message options in a row: the later one wins. */
  lemma MessageLastWriteWins(s: Settings, a: string, b: string)
    ensures ApplyAll(s, [WithMessage(a), WithMessage(b)]) == Apply(s, WithMessage(b))
  {
    var opts := [WithMessage(a), WithMessage(b)];
    assert opts[1..] == [WithMessage(b)];
    assert ApplyAll(Apply(s, WithMessage(a)), [WithMessage(b)])
        == ApplyAll(Apply(Apply(s, WithMessage(a)), WithMessage(b)), []);
  }

  /** Options that write different fields commute. */
  lemma OptionsOnDifferentFieldsCommute(s: Settings, m: string)
    ensures Apply(Apply(s, WithAlwaysMaintenance), WithMessage(m))
         == Apply(Apply(s, WithMessage(m)), WithAlwaysMaintenance)
  {
  }

  /** Applying the same option twice is the same as applying it once. */
  lemma ApplyIdempotent(s: Settings, o: Option)
    ensures Apply(Apply(s, o), o) == Apply(s, o)
  {
  }
}
