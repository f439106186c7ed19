/** JSON-RPC request ids and the text the permission manager looks them up by. */
module RequestIds {
  import opened Decimal

  newtype Int64 = n: int | -0x8000_0000_0000_0000 <= n < 0x8000_0000_0000_0000

  datatype RequestId = Number(n: Int64) | Str(s: string) | Null

  function ShowInt(n: int): string {
    if n < 0 then "-" + Show(-n) else Show(n)
  }

  // `permissions::request_id_key`: not injective, `Number(5)` and `Str("5")`
  // share a key, and so do `Null` and `Str("null")`.
  function Key(id: RequestId): string {
    match id
    case Str(s) => s
    case Number(n) => ShowInt(n as int)
    case Null => "null"
  }

  // The id of a permission request: session text, dash, sequence number.
  function PermissionId(sessionId: string, sequence: nat): string {
    "allthecodes-permission-" + sessionId + "-" + Show(sequence)
  }

  // Session ids may hold dashes and digits themselves; the sequence number is
  // recovered all the same, so one number never yields two ids or the reverse.
  lemma PermissionIdInjective(s1: string, n1: nat, s2: string, n2: nat)
    ensures PermissionId(s1, n1) == PermissionId(s2, n2) <==> s1 == s2 && n1 == n2
  {
    var p := "allthecodes-permission-";
    DashedInjective(p + s1, n1, p + s2, n2);
    assert (p + s1)[|p|..] == s1 && (p + s2)[|p|..] == s2;
  }

  // Although keys collide in general, only a string id can name a permission
  // request: no number and no null reaches one.
  lemma {:induction false} OnlyStringsNamePermissions(id: RequestId, sessionId: string, sequence: nat)
    ensures Key(id) == PermissionId(sessionId, sequence) <==> id == Str(PermissionId(sessionId, sequence))
  {
    assert PermissionId(sessionId, sequence)[0] == 'a';
    assert !IsDigit('a');
  }
}
