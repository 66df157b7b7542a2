/**
 * The edit dialog (src/components/EditTunnelModal.tsx): a form initialised from
 * a stored tunnel, its own defaults table, the field handlers, and a submit
 * that hands the form to `onSave` without resetting it.
 */
module EditTunnelModal {
  import opened TunnelTypes
  import TunnelForm

  const ServiceTypeOptions: seq<string> := ["rdp", "ssh", "http", "https", "tcp", "udp"]

  const ProtocolOptions: seq<string> := ["rdp", "tcp", "udp", "http", "https"]

  /** `defaultPorts` of the edit dialog. */
  const EditDefaults: map<string, PortDefaults> := map[
    "rdp" := PortDefaults(3389, "rdp"),
    "ssh" := PortDefaults(22, "tcp"),
    "http" := PortDefaults(80, "http"),
    "https" := PortDefaults(443, "https"),
    "tcp" := PortDefaults(8080, "tcp"),
    "udp" := PortDefaults(8080, "udp")
  ]

  /** The form's first state: the tunnel's id and business fields; owner and timestamps dropped. */
  function FromTunnel(t: Tunnel): (d: UpdateTunnelData)
    ensures d.id == t.id
    ensures d.name == t.name && d.serviceType == t.serviceType && d.hostname == t.hostname
    ensures d.localPort == t.localPort && d.localHost == t.localHost && d.protocol == t.protocol
  {
    UpdateTunnelData(t.id, t.name, t.serviceType, t.hostname, t.localPort, t.localHost, t.protocol)
  }

  function WithServiceType(d: UpdateTunnelData, serviceType: string): (r: UpdateTunnelData)
    requires serviceType in EditDefaults
    ensures r.serviceType == serviceType
    ensures r.localPort == EditDefaults[serviceType].port && r.protocol == EditDefaults[serviceType].protocol
    ensures r.id == d.id && r.name == d.name && r.hostname == d.hostname && r.localHost == d.localHost
  {
    d.(serviceType := serviceType,
       localPort := EditDefaults[serviceType].port,
       protocol := EditDefaults[serviceType].protocol)
  }

  lemma TableKeysAreOptions()
    ensures forall k :: k in EditDefaults <==> k in ServiceTypeOptions
  {
  }

  lemma TableProtocolsAreOptions()
    ensures forall k :: k in EditDefaults ==> EditDefaults[k].protocol in ProtocolOptions
  {
  }

  /**
   * The two forms' tables have the same keys and the same rows except one:
   * for rdp the edit dialog suggests protocol "rdp" where the create form says "tcp".
   */
  lemma TablesDifferOnlyInRdpProtocol()
    ensures EditDefaults.Keys == TunnelForm.CreateDefaults.Keys
    ensures forall k :: k in EditDefaults && k != "rdp" ==> EditDefaults[k] == TunnelForm.CreateDefaults[k]
    ensures EditDefaults["rdp"] == TunnelForm.CreateDefaults["rdp"].(protocol := "rdp")
    ensures EditDefaults["rdp"] != TunnelForm.CreateDefaults["rdp"]
  {
  }

  class EditForm {
    /** The tunnel the dialog was opened for. */
    const tunnel: Tunnel
    var formData: UpdateTunnelData

    /** The id on the form is always the id of the tunnel being edited. */
    ghost predicate Valid()
      reads this
    {
      formData.id == tunnel.id
    }

    constructor (t: Tunnel)
      ensures tunnel == t && formData == FromTunnel(t)
      ensures Valid()
    {
      tunnel := t;
      formData := FromTunnel(t);
    }

    method ChangeServiceType(serviceType: string)
      requires Valid()
      requires serviceType in EditDefaults
      modifies this
      ensures Valid()
      ensures formData == WithServiceType(old(formData), serviceType)
    {
      formData := WithServiceType(formData, serviceType);
    }

    method SetName(value: string)
      requires Valid()
      modifies this
      ensures Valid()
      ensures formData == old(formData).(name := value)
    {
      formData := formData.(name := value);
    }

    method SetHostname(value: string)
      requires Valid()
      modifies this
      ensures Valid()
      ensures formData == old(formData).(hostname := value)
    {
      formData := formData.(hostname := value);
    }

    /** Receives the integer the port input parses to. */
    method SetLocalPort(port: int)
      requires Valid()
      modifies this
      ensures Valid()
      ensures formData == old(formData).(localPort := port)
    {
      formData := formData.(localPort := port);
    }

    method SetLocalHost(value: string)
      requires Valid()
      modifies this
      ensures Valid()
      ensures formData == old(formData).(localHost := value)
    {
      formData := formData.(localHost := value);
    }

    method SetProtocol(value: string)
      requires Valid()
      modifies this
      ensures Valid()
      ensures formData == old(formData).(protocol := value)
    {
      formData := formData.(protocol := value);
    }

    /** Hands the form, with the original id, to `onSave`; the form is kept as it is. */
    method Submit() returns (saved: UpdateTunnelData)
      requires Valid()
      ensures saved == formData
      ensures saved.id == tunnel.id
    {
      saved := formData;
    }
  }
}
