/** The runtime component's bootstrap life cycle (`genesysGPE.js`): contact
    capture and submission, fetching the named configuration, running the
    generated script, resolving the configuration id, and handing the hidden
    pre-chat fields to the messaging widget. Every asynchronous result (Apex
    call, `eval`, the widget's ready event) arrives as a method call whose
    parameters carry the outcome. */
module Orchestrator {
  import opened Common
  import opened ConfigModel
  import opened Validators
  import opened ScriptCompiler

  /** What a rejected call or a thrown exception carries:
      `error.body?.message` and `error.message`. */
  datatype ErrorInfo = ErrorInfo(bodyMessage: Option<string>, message: Option<string>)

  /** The message `handleError` reports: the server's message, else the
      error's own, else `Unknown error`. */
  function ErrorMessage(e: ErrorInfo): (m: string)
    ensures m != ""
    ensures OrEmpty(e.bodyMessage) != "" ==> m == e.bodyMessage.value
    ensures OrEmpty(e.bodyMessage) == "" && OrEmpty(e.message) != "" ==> m == e.message.value
    ensures OrEmpty(e.bodyMessage) == "" && OrEmpty(e.message) == "" ==> m == "Unknown error"
  {
    if OrEmpty(e.bodyMessage) != "" then e.bodyMessage.value
    else if OrEmpty(e.message) != "" then e.message.value
    else "Unknown error"
  }

  /** The error toast `handleError(context, error)` raises. */
  function ErrorToast(context: string, e: ErrorInfo): (t: Toast)
    ensures t.title == "Error" && t.variant == "error"
    ensures |t.message| > |context| + 2 && t.message[..|context| + 2] == context + ": "
    ensures t.message[|context| + 2..] == ErrorMessage(e)
  {
    Toast("Error", context + ": " + ErrorMessage(e), "error")
  }

  /** The fields handed to `prechatAPI.setHiddenPrechatFields`. */
  datatype HiddenFields = HiddenFields(customerEmail: string, customerPhone: string, gpeConfigId: Option<string>)

  /** Every field of the component together with what it has asked of its
      collaborators so far. */
  datatype GPEState = GPEState(
    gpeConfigName: string,
    isGPELoaded: bool,
    statusMessage: string,
    gpeConfigId: Option<string>,
    email: string,
    phone: string,
    showForm: bool,
    gpeConfig: Option<GPEConfig>,
    isEmbeddedMessagingReady: bool,
    readyListenerAdded: bool,
    toasts: seq<Toast>,
    configDetailsRequests: seq<string>,
    configIdRequests: seq<string>,
    executedScripts: seq<Script>,
    hiddenFieldCalls: seq<HiddenFields>)

  /** The state after `loadGPEConfig`. */
  function Loading(st: GPEState): GPEState
  {
    if st.gpeConfigName == "" then st
    else st.(statusMessage := "Loading GPE configuration...",
             configDetailsRequests := st.configDetailsRequests + [st.gpeConfigName])
  }

  /** The toast `handleSubmit` raises. */
  function SubmitToast(st: GPEState, valid: bool): Toast
  {
    if st.email == "" || st.phone == "" then Toast("Error", "Email and phone are required", "error")
    else if valid then Toast("Success", "Information submitted successfully", "success")
    else Toast("Error", "Please enter valid email and phone number", "error")
  }

  /** The state after `handleSubmit`, where `valid` is whether both values
      pass their checks: the form is hidden when both are present and valid,
      and the configuration is requested when, besides, a name is set. */
  function Submitted(st: GPEState, valid: bool): GPEState
  {
    var proceeds := st.email != "" && st.phone != "" && valid;
    var loads := proceeds && st.gpeConfigName != "";
    st.(showForm := if proceeds then false else st.showForm,
        statusMessage := if loads then "Loading GPE configuration..." else st.statusMessage,
        configDetailsRequests := st.configDetailsRequests + (if loads then [st.gpeConfigName] else []),
        toasts := st.toasts + [SubmitToast(st, valid)])
  }

  /** Submission hides the form exactly when both values pass their checks,
      and asks for the configuration exactly when it also has a name. */
  lemma SubmitLoadsIffValid(st: GPEState)
    requires st.showForm
    ensures var r := Submitted(st, ValidateEmail(st.email) && ValidatePhone(st.phone));
      (!r.showForm <==> ValidateEmail(st.email) && ValidatePhone(st.phone))
      && (r.configDetailsRequests == st.configDetailsRequests + [st.gpeConfigName]
          <==> ValidateEmail(st.email) && ValidatePhone(st.phone) && st.gpeConfigName != "")
      && (r.configDetailsRequests == st.configDetailsRequests
          <==> !(ValidateEmail(st.email) && ValidatePhone(st.phone) && st.gpeConfigName != ""))
  {
    var valid := ValidateEmail(st.email) && ValidatePhone(st.phone);
    SubmitEnabledIffBothValid(st.email, st.phone);
    assert valid ==> st.email != "" && st.phone != "";
    SubmitLoadsIffValidAt(st, valid);
  }

  lemma SubmitLoadsIffValidAt(st: GPEState, valid: bool)
    requires st.showForm
    requires valid ==> st.email != "" && st.phone != ""
    ensures var r := Submitted(st, valid);
      (!r.showForm <==> valid)
      && (r.configDetailsRequests == st.configDetailsRequests + [st.gpeConfigName] <==> valid && st.gpeConfigName != "")
      && (r.configDetailsRequests == st.configDetailsRequests <==> !(valid && st.gpeConfigName != ""))
  {
    var r := Submitted(st, valid);
    if valid && st.gpeConfigName != "" {
      assert |r.configDetailsRequests| == |st.configDetailsRequests| + 1;
    } else {
      assert r.configDetailsRequests == st.configDetailsRequests + [];
    }
  }

  /** Submission always raises exactly one toast (the missing-value error when
      a value is empty) and never touches the contact values, the loaded
      configuration, its id, the scripts run or the widget. */
  lemma SubmitFrame(st: GPEState, valid: bool)
    ensures var r := Submitted(st, valid);
      |r.toasts| == |st.toasts| + 1 && r.toasts[..|st.toasts|] == st.toasts
      && r.email == st.email && r.phone == st.phone && r.gpeConfig == st.gpeConfig
      && r.gpeConfigId == st.gpeConfigId && r.isGPELoaded == st.isGPELoaded
      && r.executedScripts == st.executedScripts && r.configIdRequests == st.configIdRequests
      && r.isEmbeddedMessagingReady == st.isEmbeddedMessagingReady && r.hiddenFieldCalls == st.hiddenFieldCalls
      && (st.email == "" || st.phone == "" ==> r.toasts[|st.toasts|].message == "Email and phone are required")
  {
  }

  class GenesysGPE {
    var gpeConfigName: string
    var isGPELoaded: bool
    var statusMessage: string
    var gpeConfigId: Option<string>
    var email: string
    var phone: string
    var showForm: bool
    var gpeConfig: Option<GPEConfig>
    var isEmbeddedMessagingReady: bool
    /** Whether `connectedCallback` has added the window listener. */
    var readyListenerAdded: bool
    /** Toasts raised, in order. */
    var toasts: seq<Toast>
    /** `getConfigDetailsByName` calls issued, with the name asked for. */
    var configDetailsRequests: seq<string>
    /** `getConfigId` calls issued, with the name asked for. */
    var configIdRequests: seq<string>
    /** Scripts handed to `eval`. */
    var executedScripts: seq<Script>
    /** `setHiddenPrechatFields` calls made. */
    var hiddenFieldCalls: seq<HiddenFields>

    function State(): GPEState
      reads this
    {
      GPEState(gpeConfigName, isGPELoaded, statusMessage, gpeConfigId, email, phone, showForm,
               gpeConfig, isEmbeddedMessagingReady, readyListenerAdded, toasts,
               configDetailsRequests, configIdRequests, executedScripts, hiddenFieldCalls)
    }

    /** A fresh component whose host has set `gpeConfigName` (the empty
        string when it has not). */
    constructor (gpeConfigName: string)
      ensures State() == GPEState(gpeConfigName, false, "", None, "", "", true, None, false, false, [], [], [], [], [])
    {
      this.gpeConfigName := gpeConfigName;
      isGPELoaded := false;
      statusMessage := "";
      gpeConfigId := None;
      email := "";
      phone := "";
      showForm := true;
      gpeConfig := None;
      isEmbeddedMessagingReady := false;
      readyListenerAdded := false;
      toasts := [];
      configDetailsRequests := [];
      configIdRequests := [];
      executedScripts := [];
      hiddenFieldCalls := [];
    }

    /** `connectedCallback`: adds the `onEmbeddedMessagingReady` listener. */
    method ConnectedCallback()
      modifies this
      ensures State() == old(State()).(readyListenerAdded := true)
    {
      readyListenerAdded := true;
    }

    /** The window fires `onEmbeddedMessagingReady`. The listener only records
        readiness: it never sets the hidden fields itself. */
    method EmbeddedMessagingReadyFired()
      modifies this
      ensures State() == old(State()).(isEmbeddedMessagingReady := old(isEmbeddedMessagingReady) || old(readyListenerAdded))
      ensures hiddenFieldCalls == old(hiddenFieldCalls)
    {
      if readyListenerAdded {
        isEmbeddedMessagingReady := true;
      }
    }

    /** `handleEmailChange`: stores the value and warns when it is malformed. */
    method HandleEmailChange(value: string)
      modifies this
      ensures State() == old(State()).(email := value, toasts := old(toasts)
        + (if ValidateEmail(value) then [] else [Toast("Warning", "Please enter a valid email address", "warning")]))
    {
      email := value;
      if !ValidateEmail(value) {
        toasts := toasts + [Toast("Warning", "Please enter a valid email address", "warning")];
      }
    }

    /** `handlePhoneChange`: stores the value and warns when it is not E.164. */
    method HandlePhoneChange(value: string)
      modifies this
      ensures State() == old(State()).(phone := value, toasts := old(toasts)
        + (if ValidatePhone(value) then [] else [Toast("Warning", "Please enter a valid phone number in E.164 format (e.g. +34666111222)", "warning")]))
    {
      phone := value;
      if !ValidatePhone(value) {
        toasts := toasts + [Toast("Warning", "Please enter a valid phone number in E.164 format (e.g. +34666111222)", "warning")];
      }
    }

    /** `handleSubmit`: an empty value only raises an error; two valid values
        hide the form, start loading the configuration when a name is set and
        raise a success toast; otherwise an error toast. */
    method HandleSubmit()
      modifies this
      ensures State() == Submitted(old(State()), ValidateEmail(old(email)) && ValidatePhone(old(phone)))
    {
      if email == "" || phone == "" {
        toasts := toasts + [Toast("Error", "Email and phone are required", "error")];
        return;
      }
      var valid := ValidateEmail(email) && ValidatePhone(phone);
      if valid {
        showForm := false;
        if gpeConfigName != "" {
          LoadGPEConfig();
        }
        toasts := toasts + [Toast("Success", "Information submitted successfully", "success")];
      } else {
        toasts := toasts + [Toast("Error", "Please enter valid email and phone number", "error")];
      }
    }

    /** `loadGPEConfig`: without a name it returns before fetching anything;
        otherwise it reports progress and asks for the configuration. */
    method LoadGPEConfig()
      modifies this
      ensures gpeConfigName == "" ==> State() == old(State())
      ensures gpeConfigName != "" ==> State() == old(State()).(
        statusMessage := "Loading GPE configuration...",
        configDetailsRequests := old(configDetailsRequests) + [gpeConfigName])
    {
      if gpeConfigName == "" {
        return;
      }
      statusMessage := "Loading GPE configuration...";
      configDetailsRequests := configDetailsRequests + [gpeConfigName];
    }

    /** The `getConfigDetailsByName` call settles. `details` is the parsed
        record or the error (a rejected call or a `JSON.parse` failure);
        `evalError` is what `eval` of the generated script throws, if anything.
        On success the component keeps the record, asks for its id, and runs
        the script compiled from it and the visitor's contact values. */
    method OnConfigDetails(details: Result<GPEConfig, ErrorInfo>, evalError: Option<ErrorInfo>)
      modifies this
      ensures details.Err? ==> State() == old(State()).(
        toasts := old(toasts) + [ErrorToast("Failed to load GPE configuration", details.error)])
      ensures details.Ok? ==> State() == old(State()).(
        gpeConfig := Some(details.value),
        configIdRequests := old(configIdRequests) + [gpeConfigName],
        executedScripts := old(executedScripts) + [GenerateGPEScript(details.value, email, phone)],
        isGPELoaded := old(isGPELoaded) || evalError.None?,
        toasts := old(toasts) + (if evalError.None? then [] else [ErrorToast("Failed to execute GPE script", evalError.value)]))
    {
      match details
      case Err(e) =>
        HandleError("Failed to load GPE configuration", e);
      case Ok(cfg) =>
        gpeConfig := Some(cfg);
        GetConfigId();
        InitializeGPE(evalError);
    }

    /** `getConfigId`: asks for the id of the named configuration. */
    method GetConfigId()
      modifies this
      ensures State() == old(State()).(configIdRequests := old(configIdRequests) + [gpeConfigName])
    {
      configIdRequests := configIdRequests + [gpeConfigName];
    }

    /** `initializeGPE`: compiles the script and runs it; the component counts
        as loaded only when `eval` does not throw. */
    method InitializeGPE(evalError: Option<ErrorInfo>)
      requires gpeConfig.Some?
      modifies this
      ensures State() == old(State()).(
        executedScripts := old(executedScripts) + [GenerateGPEScript(old(gpeConfig).value, old(email), old(phone))],
        isGPELoaded := old(isGPELoaded) || evalError.None?,
        toasts := old(toasts) + (if evalError.None? then [] else [ErrorToast("Failed to execute GPE script", evalError.value)]))
    {
      var script := GenerateGPEScript(gpeConfig.value, email, phone);
      executedScripts := executedScripts + [script];
      if evalError.None? {
        isGPELoaded := true;
      } else {
        HandleError("Failed to execute GPE script", evalError.value);
      }
    }

    /** The `getConfigId` call settles. The id is stored, and the hidden
        fields are set only if the widget had already reported ready. */
    method OnConfigId(result: Result<string, ErrorInfo>, prechatApiAvailable: bool)
      modifies this
      ensures result.Err? ==> State() == old(State()).(
        toasts := old(toasts) + [ErrorToast("Failed to get config ID", result.error)])
      ensures result.Ok? ==> State() == old(State()).(
        gpeConfigId := Some(result.value),
        hiddenFieldCalls := old(hiddenFieldCalls)
          + (if old(isEmbeddedMessagingReady) && old(gpeConfig).Some? && prechatApiAvailable
             then [HiddenFields(old(email), old(phone), Some(result.value))] else []))
    {
      match result
      case Err(e) =>
        HandleError("Failed to get config ID", e);
      case Ok(id) =>
        gpeConfigId := Some(id);
        if isEmbeddedMessagingReady {
          SetupPrechatFields(prechatApiAvailable);
        }
    }

    /** `setupPrechatFields`: with the widget ready and a configuration loaded,
        hands e-mail, phone and configuration id to the pre-chat API when that
        API exists (its absence is only logged). */
    method SetupPrechatFields(prechatApiAvailable: bool)
      modifies this
      ensures State() == old(State()).(hiddenFieldCalls := old(hiddenFieldCalls)
        + (if isEmbeddedMessagingReady && gpeConfig.Some? && prechatApiAvailable
           then [HiddenFields(email, phone, gpeConfigId)] else []))
    {
      if isEmbeddedMessagingReady && gpeConfig.Some? {
        if prechatApiAvailable {
          hiddenFieldCalls := hiddenFieldCalls + [HiddenFields(email, phone, gpeConfigId)];
        }
      }
    }

    /** `handleError`: one error toast carrying the cause's message. */
    method HandleError(context: string, e: ErrorInfo)
      modifies this
      ensures State() == old(State()).(toasts := old(toasts) + [ErrorToast(context, e)])
    {
      toasts := toasts + [ErrorToast(context, e)];
    }

    /** `isSubmitDisabled`. */
    function SubmitDisabled(): (disabled: bool)
      reads this
      ensures !disabled <==> ValidateEmail(email) && ValidatePhone(phone)
    {
      SubmitEnabledIffBothValid(email, phone);
      IsSubmitDisabled(email, phone)
    }
  }

  /** The widget reports ready before the id arrives: the hidden fields are
      set exactly once, with the visitor's values and the id. */
  method ReadyBeforeIdInjectsOnce(name: string, email: string, phone: string, cfg: GPEConfig, id: string)
    returns (injected: seq<HiddenFields>, loaded: bool)
    requires name != "" && ValidateEmail(email) && ValidatePhone(phone)
    ensures injected == [HiddenFields(email, phone, Some(id))]
    ensures loaded
  {
    var c := new GenesysGPE(name);
    c.ConnectedCallback();
    c.HandleEmailChange(email);
    c.HandlePhoneChange(phone);
    c.EmbeddedMessagingReadyFired();
    c.HandleSubmit();
    c.OnConfigDetails(Ok(cfg), None);
    c.OnConfigId(Ok(id), true);
    injected, loaded := c.hiddenFieldCalls, c.isGPELoaded;
  }

  /** The id arrives before the widget reports ready: the ready listener only
      records readiness, so the hidden fields are never set. */
  method IdBeforeReadyNeverInjects(name: string, email: string, phone: string, cfg: GPEConfig, id: string)
    returns (injected: seq<HiddenFields>, ready: bool, loaded: bool)
    requires name != "" && ValidateEmail(email) && ValidatePhone(phone)
    ensures injected == []
    ensures ready && loaded
  {
    var c := new GenesysGPE(name);
    c.ConnectedCallback();
    c.HandleEmailChange(email);
    c.HandlePhoneChange(phone);
    c.HandleSubmit();
    c.OnConfigDetails(Ok(cfg), None);
    c.OnConfigId(Ok(id), true);
    c.EmbeddedMessagingReadyFired();
    injected, ready, loaded := c.hiddenFieldCalls, c.isEmbeddedMessagingReady, c.isGPELoaded;
  }

  /** Without a configuration name, a valid submission hides the form but
      fetches nothing and never loads a script. */
  method SubmitWithoutNameFetchesNothing(email: string, phone: string)
    returns (requests: seq<string>, formShown: bool, loaded: bool)
    requires ValidateEmail(email) && ValidatePhone(phone)
    ensures requests == [] && !formShown && !loaded
  {
    var c := new GenesysGPE("");
    c.HandleEmailChange(email);
    c.HandlePhoneChange(phone);
    c.HandleSubmit();
    requests, formShown, loaded := c.configDetailsRequests, c.showForm, c.isGPELoaded;
  }
}
