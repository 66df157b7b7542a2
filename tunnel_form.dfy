/**
 * The create form (src/components/TunnelForm.tsx): its `formData` state, the
 * service-type defaults table, the field handlers and the submit-then-reset.
 */
module TunnelForm {
  import opened TunnelTypes

  /** The service-type select's options. */
  const ServiceTypeOptions: seq<string> := ["rdp", "ssh", "http", "https", "tcp", "udp"]

  /** The protocol select's options; this form offers no "rdp". */
  const ProtocolOptions: seq<string> := ["tcp", "udp", "http", "https"]

  /** `defaultPorts` of the create form. */
  const CreateDefaults: map<string, PortDefaults> := map[
    "rdp" := PortDefaults(3389, "tcp"),
    "ssh" := PortDefaults(22, "tcp"),
    "http" := PortDefaults(80, "http"),
    "https" := PortDefaults(443, "https"),
    "tcp" := PortDefaults(8080, "tcp"),
    "udp" := PortDefaults(8080, "udp")
  ]

  /** The state the form starts in and returns to after each submit. */
  const InitialForm: CreateTunnelData := CreateTunnelData("", "rdp", "", 3389, "localhost", "tcp")

  /** `handleServiceTypeChange`'s new state: the type, and its port and protocol from the table. */
  function WithServiceType(d: CreateTunnelData, serviceType: string): (r: CreateTunnelData)
    requires serviceType in CreateDefaults
    ensures r.serviceType == serviceType
    ensures r.localPort == CreateDefaults[serviceType].port && r.protocol == CreateDefaults[serviceType].protocol
    ensures r.name == d.name && r.hostname == d.hostname && r.localHost == d.localHost
  {
    d.(serviceType := serviceType,
       localPort := CreateDefaults[serviceType].port,
       protocol := CreateDefaults[serviceType].protocol)
  }

  /** The table is defined for exactly the select's options. */
  lemma TableKeysAreOptions()
    ensures forall k :: k in CreateDefaults <==> k in ServiceTypeOptions
  {
  }

  /** Every protocol the table suggests is one the protocol select can show. */
  lemma TableProtocolsAreOptions()
    ensures forall k :: k in CreateDefaults ==> CreateDefaults[k].protocol in ProtocolOptions
  {
  }

  /** The initial state is the table's row for its own service type. */
  lemma InitialFormFollowsTable()
    ensures WithServiceType(InitialForm, InitialForm.serviceType) == InitialForm
  {
  }

  /** Choosing the same type twice is choosing it once; the last choice wins. */
  lemma ServiceTypeChangeLastWins(d: CreateTunnelData, s1: string, s2: string)
    requires s1 in CreateDefaults && s2 in CreateDefaults
    ensures WithServiceType(WithServiceType(d, s1), s2) == WithServiceType(d, s2)
  {
  }

  class CreateForm {
    var formData: CreateTunnelData

    constructor ()
      ensures formData == InitialForm
    {
      formData := InitialForm;
    }

    /** Defined only for the six options: any other value has no table row. */
    method ChangeServiceType(serviceType: string)
      requires serviceType in CreateDefaults
      modifies this
      ensures formData == WithServiceType(old(formData), serviceType)
    {
      formData := WithServiceType(formData, serviceType);
    }

    method SetName(value: string)
      modifies this
      ensures formData == old(formData).(name := value)
    {
      formData := formData.(name := value);
    }

    method SetHostname(value: string)
      modifies this
      ensures formData == old(formData).(hostname := value)
    {
      formData := formData.(hostname := value);
    }

    /** Receives the integer the port input parses to. */
    method SetLocalPort(port: int)
      modifies this
      ensures formData == old(formData).(localPort := port)
    {
      formData := formData.(localPort := port);
    }

    method SetLocalHost(value: string)
      modifies this
      ensures formData == old(formData).(localHost := value)
    {
      formData := formData.(localHost := value);
    }

    method SetProtocol(value: string)
      modifies this
      ensures formData == old(formData).(protocol := value)
    {
      formData := formData.(protocol := value);
    }

    /** Hands the current data to `onSubmit` unchanged, then resets the form. */
    method Submit() returns (submitted: CreateTunnelData)
      modifies this
      ensures submitted == old(formData)
      ensures formData == InitialForm
    {
      submitted := formData;
      formData := InitialForm;
    }
  }
}
