/**
 * The deployment status taxonomy: the closed table from the platform's integer
 * status codes to names, and the three ways the poller treats a name.
 */
module DeployStatus {
  import opened Basics

  const UnknownStatus: string := "UNKNOWN_STATUS"
  const InitiatingDeployment: string := "INITIATING_DEPLOYMENT"
  const PendingDeployment: string := "PENDING_DEPLOYMENT"
  const SuccessfulDeployment: string := "SUCCESSFUL_DEPLOYMENT"

  /** The codes the platform documents, 1 to 13, and their names. */
  const StatusCodeToName: map<int, string> := map[
    1 := InitiatingDeployment,
    2 := PendingDeployment,
    3 := SuccessfulDeployment,
    4 := "FAILED_DEPLOYMENT",
    5 := "SUCCESSFUL_UNDEPLOYMENT",
    6 := "FAILED_UNDEPLOYMENT",
    7 := "UNSET",
    8 := "FAILED_INITIATING_DEPLOYMENT",
    9 := "INITIATING_UNDEPLOYMENT",
    10 := "PENDING_UNDEPLOYMENT",
    11 := "ALL_BUILDS_UNDEPLOYED",
    12 := "CANCELLED_DEPLOYMENT",
    13 := "INITIATING_CANCEL_DEPLOYMENT"
  ]

  /**
   * The name of a status code; every integer has one, codes outside the table
   * get the unknown-status sentinel.
   */
  function StatusName(code: int): (name: string)
    ensures name == UnknownStatus <==> !(1 <= code <= 13)
  {
    if code in StatusCodeToName then StatusCodeToName[code] else UnknownStatus
  }

  /** Each documented code has its documented name. */
  lemma StatusNamesListed()
    ensures StatusName(1) == "INITIATING_DEPLOYMENT" && StatusName(2) == "PENDING_DEPLOYMENT"
    ensures StatusName(3) == "SUCCESSFUL_DEPLOYMENT" && StatusName(4) == "FAILED_DEPLOYMENT"
    ensures StatusName(5) == "SUCCESSFUL_UNDEPLOYMENT" && StatusName(6) == "FAILED_UNDEPLOYMENT"
    ensures StatusName(7) == "UNSET" && StatusName(8) == "FAILED_INITIATING_DEPLOYMENT"
    ensures StatusName(9) == "INITIATING_UNDEPLOYMENT" && StatusName(10) == "PENDING_UNDEPLOYMENT"
    ensures StatusName(11) == "ALL_BUILDS_UNDEPLOYED" && StatusName(12) == "CANCELLED_DEPLOYMENT"
    ensures StatusName(13) == "INITIATING_CANCEL_DEPLOYMENT"
  {
  }

  /**
   * No name holds `=`, so a `key=<name>` line splits back into the key and
   * the name. The table is checked in three slices to keep each proof small.
   */
  lemma StatusNameUnquoted(code: int)
    ensures '=' !in StatusName(code)
  {
    if 1 <= code <= 4 {
      UnquotedFirst(code);
    } else if 5 <= code <= 9 {
      UnquotedMiddle(code);
    } else if 10 <= code <= 13 {
      UnquotedLast(code);
    } else {
      assert StatusName(code) == "UNKNOWN_STATUS";
    }
  }

  lemma UnquotedFirst(code: int)
    requires 1 <= code <= 4
    ensures '=' !in StatusName(code)
  {
    var n := StatusName(code);
    if code == 1 {
      assert n == "INITIATING_DEPLOYMENT";
    } else if code == 2 {
      assert n == "PENDING_DEPLOYMENT";
    } else if code == 3 {
      assert n == "SUCCESSFUL_DEPLOYMENT";
    } else if code == 4 {
      assert n == "FAILED_DEPLOYMENT";
    }
  }

  lemma UnquotedMiddle(code: int)
    requires 5 <= code <= 9
    ensures '=' !in StatusName(code)
  {
    var n := StatusName(code);
    if code == 5 {
      assert n == "SUCCESSFUL_UNDEPLOYMENT";
    } else if code == 6 {
      assert n == "FAILED_UNDEPLOYMENT";
    } else if code == 7 {
      assert n == "UNSET";
    } else if code == 8 {
      assert n == "FAILED_INITIATING_DEPLOYMENT";
    } else if code == 9 {
      assert n == "INITIATING_UNDEPLOYMENT";
    }
  }

  lemma UnquotedLast(code: int)
    requires 10 <= code <= 13
    ensures '=' !in StatusName(code)
  {
    var n := StatusName(code);
    if code == 10 {
      assert n == "PENDING_UNDEPLOYMENT";
    } else if code == 11 {
      assert n == "ALL_BUILDS_UNDEPLOYED";
    } else if code == 12 {
      assert n == "CANCELLED_DEPLOYMENT";
    } else if code == 13 {
      assert n == "INITIATING_CANCEL_DEPLOYMENT";
    }
  }

  /**
   * The reverse lookup, trying the codes in ascending order. The script has
   * none; it serves to state that the table is a bijection.
   */
  function CodeOf(name: string): Option<int>
  {
    CodeFrom(name, 1)
  }

  function CodeFrom(name: string, code: int): (r: Option<int>)
    requires 1 <= code
    ensures r.Some? ==> code <= r.value <= 13 && StatusName(r.value) == name
    ensures r.None? ==> forall c :: code <= c <= 13 ==> StatusName(c) != name
    decreases 14 - code
  {
    if code > 13 then None
    else if StatusName(code) == name then Some(code)
    else CodeFrom(name, code + 1)
  }

  /** Distinct codes of the table have distinct names. */
  lemma StatusNameInjective(a: int, b: int)
    requires 1 <= a <= 13 && 1 <= b <= 13 && a != b
    ensures StatusName(a) != StatusName(b)
  {
    var x, y := StatusName(a), StatusName(b);
    assert |x| != |y| || x[0] != y[0];
  }

  /**
   * The table is a bijection between the codes 1..13 and their names, and
   * no listed name is the sentinel: a name determines the code it came from.
   */
  lemma CodeOfStatusName(code: int)
    ensures CodeOf(StatusName(code)) == if 1 <= code <= 13 then Some(code) else None
  {
    var name := StatusName(code);
    match CodeOf(name)
    case None =>
    case Some(c) =>
      if c != code {
        StatusNameInjective(c, code);
      }
  }

  /** What one poll does with the name it observed. */
  datatype StatusClass = KeepWaiting | SuccessTerminal | FailureTerminal

  /**
   * The successful-deployment name ends the wait successfully, the initiating
   * and pending names keep it going, and every other name, the sentinel
   * included, ends it as a failure.
   */
  function Classify(name: string): (k: StatusClass)
    ensures k == KeepWaiting <==> name == InitiatingDeployment || name == PendingDeployment
    ensures k == SuccessTerminal <==> name == SuccessfulDeployment
  {
    if name == SuccessfulDeployment then SuccessTerminal
    else if name in [InitiatingDeployment, PendingDeployment] then KeepWaiting
    else FailureTerminal
  }

  /** The classification of a code, stated over codes rather than names. */
  function ClassOfCode(code: int): StatusClass
  {
    if code == 1 || code == 2 then KeepWaiting
    else if code == 3 then SuccessTerminal
    else FailureTerminal
  }

  /** Classifying the name of a code agrees with classifying the code itself. */
  lemma ClassifyStatusName(code: int)
    ensures Classify(StatusName(code)) == ClassOfCode(code)
  {
  }
}
