/**
 * The account-service records (internal/cloudsdk/apigen/acc/spec_gen.go)
 * that the internal cloud client reads: regions, tenants and pages of
 * private links. Fields the client never reads are left out.
 */
module Acc {
  import Uuid

  /** The width of Go's uint64: arithmetic on these fields wraps modulo this. */
  const U64: nat := 0x1_0000_0000_0000_0000

  datatype Region = Region(regionName: string, url: string, platform: string)

  datatype Tenant = Tenant(id: nat, nsId: Uuid.Uuid, region: string, tenantName: string)

  datatype PrivateLink = PrivateLink(connectionName: string, id: Uuid.Uuid, region: string, tenantId: nat)

  /** PrivateLinkSizePage: one page of the private-link listing and the total size. */
  datatype PrivateLinkSizePage = PrivateLinkSizePage(limit: nat, offset: nat, privateLinks: seq<PrivateLink>, size: nat)

  /** The page's counters are uint64 values. */
  predicate IsU64Page(p: PrivateLinkSizePage)
  {
    p.limit < U64 && p.offset < U64 && p.size < U64
  }
}
