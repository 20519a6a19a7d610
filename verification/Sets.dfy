/** Taking members out of finite sets, one at a time. */
module Sets {

  /** Any member of a set, as a loop over an unordered collection takes them. */
  method Pick<T>(s: set<T>) returns (x: T)
    requires s != {}
    ensures x in s
  {
    x :| x in s;
  }

  ghost function Choose<T>(s: set<T>): (x: T)
    requires s != {}
    ensures x in s
  {
    var x :| x in s;
    x
  }

  lemma AnyOf<T>(s: set<T>) returns (x: T)
    requires s != {}
    ensures x in s
  {
    x :| x in s;
  }

  lemma Outside<T>(s: set<T>, t: set<T>) returns (x: T)
    requires !(s <= t)
    ensures x in s && x !in t
  {
    x :| x in s && x !in t;
  }

  lemma SubsetSize<T>(s: set<T>, t: set<T>)
    requires s <= t
    ensures |s| <= |t|
    ensures |s| == |t| ==> s == t
  {
    assert t == s + (t - s);
    assert |t| == |s| + |t - s|;
  }
}
