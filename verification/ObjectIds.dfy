// The printer and the splitter of textual object ids: comp, comp/port and
// comp/port/cookie.
module ObjectIds {
  import opened Text

  function CreateOid(componentOid: string, name: string, ckValue: string): string {
    var oid := componentOid + "/" + name;
    if ckValue != "" then oid + "/" + ckValue else oid
  }

  // std::string::rfind; |s| stands for npos, which fails every test against
  // the size just as npos does.
  function LastIndex(s: string, c: char): (i: nat)
    ensures i <= |s|
    ensures i < |s| ==> s[i] == c && Free(s[i + 1..], c)
    ensures i == |s| ==> Free(s, c)
  {
    if s == [] then 0
    else if s[|s| - 1] == c then |s| - 1
    else
      var k := |s| - 1;
      var i := LastIndex(s[..k], c);
      assert s == s[..k] + [s[k]];
      if i == k then |s| else
        assert s[i + 1..] == s[..k][i + 1..] + [s[k]];
        i
  }

  method ReadOid(oid: string) returns (names: seq<string>)
    ensures |names| > 0 && AllFree(names, '/') && Join(names, '/') == oid
    ensures names == Split(oid, '/')
  {
    names := [];
    var componentOid := oid;
    var end := LastIndex(componentOid, '/');
    while end < |componentOid|
      invariant end == LastIndex(componentOid, '/')
      invariant Split(oid, '/') == Split(componentOid, '/') + names
      decreases |componentOid|
    {
      var tail := componentOid[end + 1..];
      CutLast(componentOid, end);
      ConcatAssociative(Split(componentOid[..end], '/'), [tail], names);
      names := [tail] + names;
      componentOid := componentOid[..end];
      end := LastIndex(componentOid, '/');
    }
    ComponentAlone(componentOid);
    names := [componentOid] + names;
  }

  // Cutting a text at its last slash cuts off its last piece.
  lemma CutLast(s: string, end: nat)
    requires end < |s| && s[end] == '/' && Free(s[end + 1..], '/')
    ensures Split(s, '/') == Split(s[..end], '/') + [s[end + 1..]]
  {
    hide Split, Free;
    CutAt(s, end);
    SplitSnoc(s[..end], s[end + 1..], '/');
  }

  lemma CreateIsJoin(c: string, n: string, k: string)
    ensures CreateOid(c, n, "") == Join([c, n], '/')
    ensures k != "" ==> CreateOid(c, n, k) == Join([c, n, k], '/')
  {
    assert [c, n][1..] == [n];
    assert [c, n, k][1..] == [n, k] && [n, k][1..] == [k];
    assert Join([n, k], '/') == n + ['/'] + Join([k], '/');
    assert Join([c, n, k], '/') == c + ['/'] + Join([n, k], '/');
    assert c + ['/'] + (n + ['/'] + k) == c + "/" + n + "/" + k;
  }

  // The splitter undoes the printer exactly when no part holds a slash.
  lemma ReadCreateLocal(c: string, n: string, k: string)
    requires k != ""
    ensures Split(CreateOid(c, n, k), '/') == [c, n, k] <==> Free(c, '/') && Free(n, '/') && Free(k, '/')
  {
    CreateIsJoin(c, n, k);
    var parts := [c, n, k];
    assert AllFree(parts, '/') <==> Free(parts[0], '/') && Free(parts[1], '/') && Free(parts[2], '/');
    if AllFree(parts, '/') {
      SplitJoin(parts, '/');
    }
  }

  lemma ReadCreateFacet(c: string, n: string)
    ensures Split(CreateOid(c, n, ""), '/') == [c, n] <==> Free(c, '/') && Free(n, '/')
  {
    CreateIsJoin(c, n, "");
    var parts := [c, n];
    assert AllFree(parts, '/') <==> Free(parts[0], '/') && Free(parts[1], '/');
    if AllFree(parts, '/') {
      SplitJoin(parts, '/');
    }
  }

  // Whatever the port is called, the first piece is the component.
  lemma ComponentPart(c: string, n: string, k: string)
    requires Free(c, '/')
    ensures |Split(CreateOid(c, n, k), '/')| >= 2
    ensures Split(CreateOid(c, n, k), '/')[0] == c
  {
    var rest := if k == "" then n else n + "/" + k;
    assert CreateOid(c, n, k) == c + ['/'] + rest;
    SplitCons(c, rest, '/');
  }

  // A component oid alone is one piece.
  lemma ComponentAlone(c: string)
    requires Free(c, '/')
    ensures Split(c, '/') == [c]
  {
    assert AllFree([c], '/');
    SplitJoin([c], '/');
  }

  // Cutting the text at its first NUL cuts the port.
  lemma CutOid(c: string, n: string)
    requires Free(c, '\0')
    ensures CString(CreateOid(c, n, "")) == CreateOid(c, CString(n), "")
  {
    var s := CreateOid(c, n, "");
    var k := |c| + 1 + FirstIndex(n, '\0');
    assert s == c + ['/'] + n;
    assert s[..k] == c + ['/'] + CString(n);
    assert forall i | 0 <= i < k :: s[i] != '\0' by {
      forall i | 0 <= i < k ensures s[i] != '\0' {
        if i < |c| { assert s[i] == c[i]; } else if i > |c| { assert s[i] == CString(n)[i - |c| - 1]; }
      }
    }
    assert k < |s| ==> s[k] == '\0';
    FirstIndexUnique(s, '\0', k);
  }

  // Reading back two pieces means the printer made the text from them.
  lemma ReadTwo(oid: string)
    requires |Split(oid, '/')| == 2
    ensures var p := Split(oid, '/'); oid == CreateOid(p[0], p[1], "")
  {
    var p := Split(oid, '/');
    CreateIsJoin(p[0], p[1], "");
    assert p == [p[0], p[1]];
  }

  // Reading back three pieces, the last not empty, means the printer made
  // the text from them.
  lemma ReadThree(oid: string)
    requires |Split(oid, '/')| == 3 && Split(oid, '/')[2] != ""
    ensures var p := Split(oid, '/'); oid == CreateOid(p[0], p[1], p[2])
  {
    var p := Split(oid, '/');
    CreateIsJoin(p[0], p[1], p[2]);
    assert p == [p[0], p[1], p[2]];
  }

  lemma JoinedFree(comp: string, source: string, ck: string, c: char)
    requires Free(comp, c) && Free(source, c) && Free(ck, c) && c != '/'
    ensures Free(CreateOid(comp, source, ck), c)
  {
  }

  // A piece of a NUL-free text is NUL-free.
  lemma PieceFree(oid: string, i: nat)
    requires Free(oid, '\0') && i < |Split(oid, '/')|
    ensures Free(Split(oid, '/')[i], '\0')
  {
    JoinedPieceFree(Split(oid, '/'), i);
  }

  lemma {:induction false} JoinedPieceFree(parts: seq<string>, i: nat)
    requires i < |parts| && Free(Join(parts, '/'), '\0')
    ensures Free(parts[i], '\0')
    decreases |parts|
  {
    if |parts| > 1 {
      var s := Join(parts, '/');
      assert forall j | 0 <= j < |parts[0]| :: s[j] == parts[0][j];
      assert forall j | 0 <= j < |Join(parts[1..], '/')| :: s[|parts[0]| + 1 + j] == Join(parts[1..], '/')[j];
      if i > 0 {
        JoinedPieceFree(parts[1..], i - 1);
      }
    }
  }

  lemma OidPrinted()
    ensures CreateOid("c", "port", "") == "c/port" && CreateOid("c", "port", "1:2:3") == "c/port/1:2:3"
  {
  }
}
