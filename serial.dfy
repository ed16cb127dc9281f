/**
 * Port selection in the plotter's `SerialManager::new`
 * (rust/plotter/src/serial.rs). The enumerated ports are an input; opening
 * the chosen port is not part of this model.
 */
module Serial {
  import opened Results
  import opened Selection

  datatype SerialPortType =
    | UsbPort(product: Option<string>)
    | PciPort
    | BluetoothPort
    | Unknown

  datatype SerialPortInfo = SerialPortInfo(portName: string, portType: SerialPortType)

  /** `s.starts_with(prefix)` */
  predicate StartsWith(s: string, prefix: string)
  {
    prefix <= s
  }

  /**
   * Whether a port is the requested device: a USB port by its product string
   * (equal, or starting with `device` when `startswith`) and only when
   * `isDesc`; any other port by its name and only when not `isDesc`.
   */
  predicate IsDevice(p: SerialPortInfo, device: string, isDesc: bool, startswith: bool)
  {
    match p.portType
    case UsbPort(product) =>
      isDesc && product.Some? &&
      (if startswith then StartsWith(product.value, device) else product.value == device)
    case _ => !isDesc && p.portName == device
  }

  /** The rule as a predicate on ports. */
  function Matcher(device: string, isDesc: bool, startswith: bool): SerialPortInfo -> bool
  {
    p => IsDevice(p, device, isDesc, startswith)
  }

  /** The `match p.port_type` block that sets `is_device`. */
  method CheckPort(p: SerialPortInfo, device: string, isDesc: bool, startswith: bool) returns (isDevice: bool)
    ensures isDevice == IsDevice(p, device, isDesc, startswith)
  {
    isDevice := false;
    match p.portType {
      case UsbPort(product) =>
        if isDesc {
          if startswith {
            if product.Some? && StartsWith(product.value, device) {
              isDevice := true;
            }
          } else if product.Some? && product.value == device {
            isDevice := true;
          }
        }
      case _ =>
        if !isDesc && p.portName == device {
          isDevice := true;
        }
    }
  }

  /** The error message of a failed search. */
  function NotFound(device: string): (m: string)
    ensures device <= m && |m| > |device|
  {
    device + " not found"
  }

  /**
   * The scan over `ports`, stopping at the `deviceNumber`-th match. Printing
   * the ports when `printDevices` is set does not change the selection, so
   * it is not modelled.
   */
  method SelectPort(ports: seq<SerialPortInfo>, device: string, deviceNumber: nat, isDesc: bool, startswith: bool)
      returns (r: Result<string, string>)
    ensures var m := Matching(ports, Matcher(device, isDesc, startswith));
      && (deviceNumber < |m| ==> r == Ok(m[deviceNumber].portName))
      && (deviceNumber >= |m| ==> r == Err(NotFound(device)))
  {
    ghost var isDev := Matcher(device, isDesc, startswith);
    var found: Option<string> := None;
    var remaining: nat := deviceNumber;
    var i := 0;
    while i < |ports|
      invariant i <= |ports|
      invariant found.None? ==> remaining + CountBefore(ports, isDev, i) == deviceNumber
      invariant found.Some? ==>
        (deviceNumber < |Matching(ports, isDev)| && found.value == Matching(ports, isDev)[deviceNumber].portName)
    {
      var p := ports[i];
      var isDevice := CheckPort(p, device, isDesc, startswith);
      assert isDevice == isDev(p);
      CountStep(ports, isDev, i);
      if isDevice {
        if remaining == 0 {
          found := Some(p.portName);
          break;
        }
        remaining := remaining - 1;
      }
      i := i + 1;
    }
    if found.Some? {
      r := Ok(found.value);
    } else {
      assert ports[..i] == ports;
      CountMatches(ports, isDev, i);
      r := Err(NotFound(device));
    }
  }

  /** A USB port is never chosen by name, and another port never by description. */
  lemma MatchKinds(p: SerialPortInfo, device: string, isDesc: bool, startswith: bool)
    ensures p.portType.UsbPort? && !isDesc ==> !IsDevice(p, device, isDesc, startswith)
    ensures !p.portType.UsbPort? && isDesc ==> !IsDevice(p, device, isDesc, startswith)
    ensures p.portType.UsbPort? && p.portType.product.None? ==> !IsDevice(p, device, isDesc, startswith)
    ensures !p.portType.UsbPort? ==> (IsDevice(p, device, isDesc, startswith) <==> !isDesc && p.portName == device)
  {
  }

  /** With only USB ports, a search by name finds nothing. */
  lemma UsbPortsNeverMatchByName(ports: seq<SerialPortInfo>, device: string, startswith: bool)
    requires forall i :: 0 <= i < |ports| ==> ports[i].portType.UsbPort?
    ensures Matching(ports, Matcher(device, false, startswith)) == []
  {
    NoMatches(ports, Matcher(device, false, startswith));
  }

  /** Matching by prefix accepts every port matching exactly, and possibly more. */
  lemma PrefixWidens(p: SerialPortInfo, device: string)
    ensures IsDevice(p, device, true, false) ==> IsDevice(p, device, true, true)
  {
  }
}
