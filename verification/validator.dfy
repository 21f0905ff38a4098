/** Cross-checks of a parsed configuration (src/config_validator.rs): every
    notifier a checker names must be declared, which is an error otherwise,
    and missing notifiers are reported as warnings. */
module Validator {
  import opened Wrappers
  import opened Errors
  import opened Config

  /** A notifier id some `notifiers` entry declares. */
  predicate Declared(config: FileConfig, nid: string) {
    GetNotifierById(config, nid).Some?
  }

  /** Every notifier named by a checker is declared. */
  predicate AllDeclared(config: FileConfig) {
    forall i, j :: 0 <= i < |config.checkers| && 0 <= j < |config.checkers[i].notifiers| ==>
      Declared(config, config.checkers[i].notifiers[j])
  }

  /** Every notifier named before position `j` of checker `i`, in checker
      order and then list order, is declared. */
  predicate DeclaredBefore(config: FileConfig, i: nat, j: nat)
    requires i < |config.checkers|
  {
    (forall i2, j2 :: 0 <= i2 < i && 0 <= j2 < |config.checkers[i2].notifiers| ==>
       Declared(config, config.checkers[i2].notifiers[j2]))
    && (forall j2 :: 0 <= j2 < j && j2 < |config.checkers[i].notifiers| ==>
          Declared(config, config.checkers[i].notifiers[j2]))
  }

  /** `verify_checker_notifiers`: the first undeclared notifier, in checker
      order and then list order, is the error. */
  method VerifyCheckerNotifiers(config: FileConfig) returns (r: Result<(), ConfigValidationError>)
    ensures r.Success? <==> AllDeclared(config)
    ensures r.Failure? ==>
              exists i, j :: 0 <= i < |config.checkers| && 0 <= j < |config.checkers[i].notifiers|
                             && !Declared(config, config.checkers[i].notifiers[j])
                             && DeclaredBefore(config, i, j)
                             && r.error == UnknownNotifier(config.checkers[i].id, config.checkers[i].notifiers[j])
  {
    var checkers := config.checkers;
    var i := 0;
    while i < |checkers|
      invariant 0 <= i <= |checkers|
      invariant forall i2, j2 :: 0 <= i2 < i && 0 <= j2 < |checkers[i2].notifiers| ==>
                  Declared(config, checkers[i2].notifiers[j2])
    {
      var ids := checkers[i].notifiers;
      var j := 0;
      while j < |ids|
        invariant 0 <= j <= |ids|
        invariant forall j2 :: 0 <= j2 < j ==> Declared(config, ids[j2])
      {
        if GetNotifierById(config, ids[j]).None? {
          return Failure(UnknownNotifier(checkers[i].id, ids[j]));
        }
        j := j + 1;
      }
      i := i + 1;
    }
    return Success(());
  }

  const NoNotifiersWarning: string := "Notifiers are not declared. You will not get notifications."

  /** The warning for a checker with an empty notifier list. */
  function EmptyNotifiersWarning(checkerId: string): string {
    "`checkers." + checkerId + ".notifiers` is empty. You will not get notifications"
  }

  /** One warning per checker with no notifiers, in checker order. */
  function EmptyWarnings(checkers: seq<CheckerConfig>): seq<string>
    decreases |checkers|
  {
    if |checkers| == 0 then []
    else
      var last := checkers[|checkers| - 1];
      EmptyWarnings(checkers[..|checkers| - 1])
      + (if |last.notifiers| == 0 then [EmptyNotifiersWarning(last.id)] else [])
  }

  /** The positions of the checkers with an empty notifier list. */
  function Silent(checkers: seq<CheckerConfig>): set<int> {
    set i | 0 <= i < |checkers| && |checkers[i].notifiers| == 0
  }

  /** Dropping the last checker drops at most its own position. */
  lemma SilentInit(checkers: seq<CheckerConfig>)
    requires |checkers| > 0
    ensures var n := |checkers| - 1;
            Silent(checkers) == Silent(checkers[..n]) + (if |checkers[n].notifiers| == 0 then {n} else {})
            && n !in Silent(checkers[..n])
  {
  }

  /** The warnings name exactly the checkers without notifiers, one
      warning for each of them. */
  lemma {:induction false} EmptyWarningsMeaning(checkers: seq<CheckerConfig>)
    ensures |EmptyWarnings(checkers)| == |Silent(checkers)|
    ensures |EmptyWarnings(checkers)| <= |checkers|
    ensures forall w :: w in EmptyWarnings(checkers) <==>
              exists i :: 0 <= i < |checkers| && |checkers[i].notifiers| == 0 && w == EmptyNotifiersWarning(checkers[i].id)
    ensures EmptyWarnings(checkers) == [] <==> forall i :: 0 <= i < |checkers| ==> |checkers[i].notifiers| > 0
    decreases |checkers|
  {
    EmptyWarningsCount(checkers);
    if |checkers| > 0 {
      var init := checkers[..|checkers| - 1];
      EmptyWarningsMeaning(init);
      assert forall i :: 0 <= i < |init| ==> init[i] == checkers[i];
    }
  }

  lemma {:induction false} EmptyWarningsCount(checkers: seq<CheckerConfig>)
    ensures |EmptyWarnings(checkers)| == |Silent(checkers)|
    decreases |checkers|
  {
    if |checkers| > 0 {
      EmptyWarningsCount(checkers[..|checkers| - 1]);
      SilentInit(checkers);
    } else {
      assert Silent(checkers) == {};
    }
  }

  /** `verify_empty_notifiers`: with no notifier declared at all, one warning
      says so and the checkers are not looked at. */
  method VerifyEmptyNotifiers(config: FileConfig) returns (warnings: seq<string>)
    ensures |config.notifiers| == 0 ==> warnings == [NoNotifiersWarning]
    ensures |config.notifiers| > 0 ==> warnings == EmptyWarnings(config.checkers)
  {
    if |config.notifiers| == 0 {
      return [NoNotifiersWarning];
    }
    var checkers := config.checkers;
    warnings := [];
    var i := 0;
    while i < |checkers|
      invariant 0 <= i <= |checkers|
      invariant warnings == EmptyWarnings(checkers[..i])
    {
      assert checkers[..i + 1][..i] == checkers[..i];
      if |checkers[i].notifiers| == 0 {
        warnings := warnings + [EmptyNotifiersWarning(checkers[i].id)];
      }
      i := i + 1;
    }
    assert checkers[..i] == checkers;
  }

  /** The warnings a valid configuration produces. */
  function Warnings(config: FileConfig): seq<string> {
    if |config.notifiers| == 0 then [NoNotifiersWarning] else EmptyWarnings(config.checkers)
  }

  /** `validate_config`: an undeclared notifier is an error; otherwise the
      warnings, which are empty exactly when notifiers are declared and every
      checker names at least one. */
  method ValidateConfig(config: FileConfig) returns (r: Result<seq<string>, ConfigValidationError>)
    ensures r.Success? <==> AllDeclared(config)
    ensures r.Failure? ==>
              exists i, j :: 0 <= i < |config.checkers| && 0 <= j < |config.checkers[i].notifiers|
                             && !Declared(config, config.checkers[i].notifiers[j])
                             && DeclaredBefore(config, i, j)
                             && r.error == UnknownNotifier(config.checkers[i].id, config.checkers[i].notifiers[j])
    ensures r.Success? ==> r.value == Warnings(config)
    ensures r == Success([]) <==>
              AllDeclared(config) && |config.notifiers| > 0
              && forall i :: 0 <= i < |config.checkers| ==> |config.checkers[i].notifiers| > 0
  {
    var checked := VerifyCheckerNotifiers(config);
    if checked.Failure? {
      return Failure(checked.error);
    }
    var warnings := VerifyEmptyNotifiers(config);
    EmptyWarningsMeaning(config.checkers);
    return Success(warnings);
  }
}
