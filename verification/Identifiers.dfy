/** The kinds of name and number an asset is known by. */
module Identifiers {
  datatype Kind = Hostname | Fqdn | Mac | Serial | DeviceId | TlsName | DnsName
}
