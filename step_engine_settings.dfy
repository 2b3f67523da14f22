/** The step engine's configuration holder: the ordered step definitions and
    the data-provider settings, read from the configuration under the key
    "stepEngine". */
module StepEngineConfig {
  import opened Wrappers

  /** The configuration key under which these settings are stored. */
  const ConfigKey: string := "stepEngine"

  /** What a failed setter throws. */
  datatype Exception = NullPointerException(message: string)

  /** The key the configuration converter of these settings answers for. */
  function ResponsibleKey(): (key: string)
    ensures key == "stepEngine"
  {
    ConfigKey
  }

  /** Identifies one step implementation by its class name; `None` is a
      name that was never set (null). */
  class StepDefinition {
    var stepClassName: Option<string>

    constructor ()
      ensures stepClassName == None
    {
      stepClassName := None;
    }

    function GetStepClassName(): Option<string>
      reads this
    {
      stepClassName
    }

    method SetStepClassName(name: Option<string>)
      modifies this
      ensures GetStepClassName() == name
    {
      stepClassName := name;
    }
  }

  /** Identifies one data-provider implementation by its class name. */
  class DataProviderSetting {
    var dataProviderClassName: Option<string>

    constructor ()
      ensures dataProviderClassName == None
    {
      dataProviderClassName := None;
    }

    function GetDataProviderClassName(): Option<string>
      reads this
    {
      dataProviderClassName
    }

    method SetDataProviderClassName(name: Option<string>)
      modifies this
      ensures GetDataProviderClassName() == name
    {
      dataProviderClassName := name;
    }
  }

  class StepEngineSettings {
    /** Never null: it starts empty and the setter refuses null. */
    var steps: seq<StepDefinition?>
    /** May be null: the setter stores whatever it is given. */
    var dataProviderSettings: Option<seq<DataProviderSetting?>>

    constructor ()
      ensures GetSteps() == []
      ensures GetDataProviderSettings() == Some([])
    {
      steps := [];
      dataProviderSettings := Some([]);
    }

    function GetSteps(): seq<StepDefinition?>
      reads this
    {
      steps
    }

    function GetDataProviderSettings(): Option<seq<DataProviderSetting?>>
      reads this
    {
      dataProviderSettings
    }

    /** Stores the step definitions; a null list is refused with an error
      and changes nothing. */
    method SetSteps(newSteps: Option<seq<StepDefinition?>>) returns (outcome: Outcome<Exception>)
      modifies this
      ensures newSteps.None? ==> outcome == Fail(NullPointerException("steps must not be null!"))
      ensures newSteps.None? ==> GetSteps() == old(GetSteps())
      ensures newSteps.Some? ==> outcome == Pass && GetSteps() == newSteps.value
      ensures GetDataProviderSettings() == old(GetDataProviderSettings())
    {
      if newSteps.None? {
        return Fail(NullPointerException("steps must not be null!"));
      }
      steps := newSteps.value;
      outcome := Pass;
    }

    /** Stores the data-provider settings as given, null included. */
    method SetDataProviderSettings(newSettings: Option<seq<DataProviderSetting?>>)
      modifies this
      ensures GetDataProviderSettings() == newSettings
      ensures GetSteps() == old(GetSteps())
    {
      dataProviderSettings := newSettings;
    }
  }
}
