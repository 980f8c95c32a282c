/**
 * Names derived from workspaces and sync targets: the cluster-set-safe
 * workspace name, and the syncer's name, prefix and service account.
 */
module WorkspaceNames {
  import opened Outcomes

  /** strings.ReplaceAll with a one-character pattern: every `from` becomes `to`. */
  function ReplaceAll(s: string, from: char, to: string): (r: string)
    // every character comes from the replacement or is a kept character of s
    ensures forall x :: x in r ==> x in to || (x in s && x != from)
    ensures from !in to ==> from !in r
    ensures from !in s ==> r == s
    // a single character: `from` becomes `to`, any other is copied
    ensures |s| == 0 ==> r == ""
    ensures |s| == 1 ==> r == (if s[0] == from then to else s)
  {
    if |s| == 0 then ""
    else (if s[0] == from then to else [s[0]]) + ReplaceAll(s[1..], from, to)
  }

  /** ComputeWorkspaceName: every ':' becomes '-', then every '-' becomes "--". */
  function ComputeWorkspaceName(workspaceName: string): (r: string)
    ensures ':' !in r
    ensures ':' !in workspaceName && '-' !in workspaceName ==> r == workspaceName
  {
    ReplaceAll(ReplaceAll(workspaceName, ':', "-"), '-', "--")
  }

  /** The same mapping read in one pass: each ':' and each '-' becomes "--", every other character stays. */
  function Escaped(s: string): string
  {
    if |s| == 0 then ""
    else (if s[0] == ':' || s[0] == '-' then "--" else [s[0]]) + Escaped(s[1..])
  }

  /** The number of occurrences of `c` in `s`. */
  function Count(s: string, c: char): nat
  {
    if |s| == 0 then 0 else (if s[0] == c then 1 else 0) + Count(s[1..], c)
  }

  /** Reads a workspace name back: "--" becomes '-'; every other character stays. */
  function Unescaped(t: string): string
  {
    if |t| == 0 then ""
    else if |t| >= 2 && t[0] == '-' && t[1] == '-' then "-" + Unescaped(t[2..])
    else [t[0]] + Unescaped(t[1..])
  }

  lemma {:induction false} ReplaceAllAppend(a: string, b: string, from: char, to: string)
    ensures ReplaceAll(a + b, from, to) == ReplaceAll(a, from, to) + ReplaceAll(b, from, to)
  {
    if |a| > 0 {
      assert (a + b)[1..] == a[1..] + b;
      ReplaceAllAppend(a[1..], b, from, to);
    } else {
      assert a + b == b;
    }
  }

  /** The two passes of ComputeWorkspaceName amount to the one-pass escape. */
  lemma {:induction false} ComputeWorkspaceNameEscapes(s: string)
    ensures ComputeWorkspaceName(s) == Escaped(s)
  {
    if |s| > 0 {
      var head := if s[0] == ':' then "-" else [s[0]];
      ReplaceAllAppend(head, ReplaceAll(s[1..], ':', "-"), '-', "--");
      ComputeWorkspaceNameEscapes(s[1..]);
    }
  }

  lemma {:induction false} EscapedFacts(s: string)
    ensures ':' !in Escaped(s)
    ensures |Escaped(s)| == |s| + Count(s, ':') + Count(s, '-')
    ensures ':' !in s && '-' !in s ==> Escaped(s) == s
  {
    if |s| > 0 {
      EscapedFacts(s[1..]);
      assert ':' !in s ==> ':' !in s[1..];
      assert '-' !in s ==> '-' !in s[1..];
    }
  }

  /**
   * The result never contains ':'; its length grows by one for every ':' and
   * every '-'; a name with neither is returned unchanged.
   */
  lemma WorkspaceNameShape(s: string)
    ensures ':' !in ComputeWorkspaceName(s)
    ensures |ComputeWorkspaceName(s)| == |s| + Count(s, ':') + Count(s, '-')
    ensures ':' !in s && '-' !in s ==> ComputeWorkspaceName(s) == s
  {
    ComputeWorkspaceNameEscapes(s);
    EscapedFacts(s);
  }

  /** A workspace name without ':' can be read back from its computed name. */
  lemma {:induction false} WorkspaceNameRoundTrip(s: string)
    requires ':' !in s
    ensures Unescaped(ComputeWorkspaceName(s)) == s
  {
    ComputeWorkspaceNameEscapes(s);
    EscapedRoundTrip(s);
  }

  lemma {:induction false} EscapedRoundTrip(s: string)
    requires ':' !in s
    ensures Unescaped(Escaped(s)) == s
  {
    if |s| > 0 {
      assert ':' !in s[1..];
      EscapedRoundTrip(s[1..]);
      var e := Escaped(s);
      if s[0] == '-' {
        assert e == "--" + Escaped(s[1..]);
        assert e[2..] == Escaped(s[1..]);
      } else {
        assert e == [s[0]] + Escaped(s[1..]);
        assert e[1..] == Escaped(s[1..]);
      }
    }
  }

  lemma {:induction false} EscapedAppend(a: string, b: string)
    ensures Escaped(a + b) == Escaped(a) + Escaped(b)
  {
    if |a| > 0 {
      assert (a + b)[1..] == a[1..] + b;
      EscapedAppend(a[1..], b);
    } else {
      assert a + b == b;
    }
  }

  /**
   * The mapping is not injective: a ':' and a '-' at the same place give the
   * same name, so "a:b" and "a-b" both become "a--b".
   */
  lemma WorkspaceNameCollision(p: string, q: string)
    ensures ComputeWorkspaceName(p + ":" + q) == ComputeWorkspaceName(p + "-" + q)
    ensures ComputeWorkspaceName(p + "-" + q) == ComputeWorkspaceName(p) + "--" + ComputeWorkspaceName(q)
  {
    ComputeWorkspaceNameEscapes(p + ":" + q);
    ComputeWorkspaceNameEscapes(p + "-" + q);
    ComputeWorkspaceNameEscapes(p);
    ComputeWorkspaceNameEscapes(q);
    EscapedAppend(p + ":", q);
    EscapedAppend(p, ":");
    EscapedAppend(p + "-", q);
    EscapedAppend(p, "-");
    assert Escaped(":") == "--" && Escaped("-") == "--";
  }

  /** GetSyncerPrefix */
  function GetSyncerPrefix(): string
  {
    "kcp-syncer"
  }

  /** GetSyncerServiceAccountName */
  function GetSyncerServiceAccountName(): string
  {
    "kcp-syncer-sa"
  }

  /**
   * GetSyncerName: the prefix, the sync target's name and the first eight
   * characters of `digest36(uid)`, joined by '-'. `digest36` stands for the
   * lower-case base36 encoding of the SHA-224 digest of the UID; the code
   * slices its first eight characters, so it must have at least eight.
   */
  function GetSyncerName(name: string, uid: string, digest36: string -> string): (r: string)
    requires |digest36(uid)| >= 8
    // the prefix and '-', the sync target's name, '-', and eight hash characters
    ensures |r| == |GetSyncerPrefix()| + |name| + 10
    ensures r[..|GetSyncerPrefix()| + 1] == GetSyncerPrefix() + "-"
    ensures r[|GetSyncerPrefix()| + 1..|r| - 9] == name && r[|r| - 9] == '-'
    ensures r[|r| - 8..] == digest36(uid)[..8]
  {
    GetSyncerPrefix() + "-" + name + "-" + digest36(uid)[..8]
  }

  /** Splits a syncer name into the sync target's name and the eight-character hash. */
  function SyncerNameParts(s: string): Option<(string, string)>
  {
    var p := GetSyncerPrefix() + "-";
    if |s| >= |p| + 9 && s[..|p|] == p && s[|s| - 9] == '-' then
      Some((s[|p|..|s| - 9], s[|s| - 8..]))
    else
      None
  }

  /** The sync target's name and the hash can be read back from a syncer name. */
  lemma SyncerNameRoundTrip(name: string, uid: string, digest36: string -> string)
    requires |digest36(uid)| >= 8
    ensures SyncerNameParts(GetSyncerName(name, uid, digest36)) == Some((name, digest36(uid)[..8]))
  {
    var s := GetSyncerName(name, uid, digest36);
    assert s[..11] == "kcp-syncer-";
    assert s[11..|s| - 9] == name;
    assert s[|s| - 8..] == digest36(uid)[..8];
  }

  /** Sync targets with different names get different syncer names, whatever their UIDs. */
  lemma SyncerNamesDistinct(a: string, ua: string, b: string, ub: string, digest36: string -> string)
    requires |digest36(ua)| >= 8 && |digest36(ub)| >= 8
    requires a != b
    ensures GetSyncerName(a, ua, digest36) != GetSyncerName(b, ub, digest36)
  {
    SyncerNameRoundTrip(a, ua, digest36);
    SyncerNameRoundTrip(b, ub, digest36);
  }

  /** The syncer names and the syncer's service account name all start with the prefix and '-'. */
  lemma SyncerPrefixShared(name: string, uid: string, digest36: string -> string)
    requires |digest36(uid)| >= 8
    ensures var p := GetSyncerPrefix() + "-";
      && GetSyncerName(name, uid, digest36)[..|p|] == p
      && |p| <= |GetSyncerServiceAccountName()| && GetSyncerServiceAccountName()[..|p|] == p
  {
  }

  /** The syncer's service account name is never a syncer name. */
  lemma ServiceAccountIsNoSyncerName(name: string, uid: string, digest36: string -> string)
    requires |digest36(uid)| >= 8
    ensures GetSyncerServiceAccountName() != GetSyncerName(name, uid, digest36)
    ensures SyncerNameParts(GetSyncerServiceAccountName()) == None
  {
  }
}
