/** fillByCollectionIDs of kafka-streamer/main.go: which of the requested collections are updated and which
    are marked as deleted, given what the external service returned. */
module KafkaFill {
  import opened Options

  /** The non-nil IDs in a response, in order. */
  function Ids(response: seq<Option<string>>): seq<string> {
    if response == [] then []
    else Ids(response[..|response| - 1])
         + (match response[|response| - 1] case Some(id) => [id] case None => [])
  }

  /** The requested IDs that a response does not contain. */
  function Missing(requested: seq<string>, returned: set<string>): seq<string> {
    if requested == [] then []
    else Missing(requested[..|requested| - 1], returned)
         + (if requested[|requested| - 1] in returned then [] else [requested[|requested| - 1]])
  }

  function Elements(s: seq<string>): set<string> {
    set x | x in s
  }

  lemma {:induction false} IdsMembers(response: seq<Option<string>>)
    ensures forall id :: id in Ids(response) <==> Some(id) in response
    ensures |Ids(response)| <= |response|
  {
    if response != [] {
      var n := |response|;
      IdsMembers(response[..n - 1]);
      assert response == response[..n - 1] + [response[n - 1]];
    }
  }

  /** One after the other, each non-nil response once. */
  lemma {:induction false} IdsConcat(xs: seq<Option<string>>, ys: seq<Option<string>>)
    ensures Ids(xs + ys) == Ids(xs) + Ids(ys)
    ensures |ys| == 1 ==> Ids(ys) == if ys[0].Some? then [ys[0].value] else []
  {
    if ys == [] {
      assert xs + ys == xs;
    } else {
      var all, front := xs + ys, ys[..|ys| - 1];
      assert all[..|all| - 1] == xs + front && all[|all| - 1] == ys[|ys| - 1];
      IdsConcat(xs, front);
      if |ys| == 1 {
        assert front == [];
      }
    }
  }

  method Fill(requested: seq<string>, response: seq<Option<string>>)
    returns (updated: seq<string>, deleted: seq<string>)
    ensures updated == Ids(response)
    ensures deleted == if |Ids(response)| == |requested| then [] else Missing(requested, Elements(Ids(response)))
    ensures forall id :: id in updated <==> Some(id) in response
    ensures forall id ::
      id in deleted <==> |updated| != |requested| && id in requested && Some(id) !in response
  {
    IdsMembers(response);
    MissingMembers(requested, Elements(Ids(response)));
    updated, deleted := [], [];
    for i := 0 to |response|
      invariant updated == Ids(response[..i])
    {
      assert response[..i + 1][..i] == response[..i];
      if response[i].Some? {
        updated := updated + [response[i].value];
      }
    }
    assert response[..|response|] == response;
    if |updated| != |requested| {
      for i := 0 to |requested|
        invariant deleted == Missing(requested[..i], Elements(Ids(response)))
      {
        assert requested[..i + 1][..i] == requested[..i];
        var found := false;
        for j := 0 to |response|
          invariant found == (Some(requested[i]) in response[..j])
        {
          assert response[..j + 1] == response[..j] + [response[j]];
          if response[j] == Some(requested[i]) {
            found := true;
          }
        }
        assert response[..|response|] == response;
        if !found {
          deleted := deleted + [requested[i]];
        }
      }
      assert requested[..|requested|] == requested;
    }
  }

  // ----- When the length comparison is enough

  predicate Distinct(s: seq<string>) {
    forall i, j :: 0 <= i < j < |s| ==> s[i] != s[j]
  }

  lemma {:induction false} MissingMembers(requested: seq<string>, returned: set<string>)
    ensures forall id :: id in Missing(requested, returned) <==> id in requested && id !in returned
  {
    if requested != [] {
      MissingMembers(requested[..|requested| - 1], returned);
      assert requested == requested[..|requested| - 1] + [requested[|requested| - 1]];
    }
  }

  lemma {:induction false} DistinctCount(s: seq<string>)
    ensures |Elements(s)| <= |s|
    ensures Distinct(s) <==> |Elements(s)| == |s|
  {
    if s != [] {
      var n := |s|;
      var front := s[..n - 1];
      DistinctCount(front);
      assert s == front + [s[n - 1]];
      assert Elements(s) == Elements(front) + {s[n - 1]};
      if s[n - 1] in front {
        assert Elements(s) == Elements(front);
        var i :| 0 <= i < n - 1 && front[i] == s[n - 1];
        assert s[i] == s[n - 1];
      } else {
        assert |Elements(s)| == |Elements(front)| + 1;
        assert Distinct(s) <==> Distinct(front) by {
          if Distinct(front) {
            forall i, j | 0 <= i < j < n ensures s[i] != s[j] {
              assert s[i] == front[i];
              if j < n - 1 {
                assert s[j] == front[j];
              }
            }
          }
          if Distinct(s) {
            forall i, j | 0 <= i < j < n - 1 ensures front[i] != front[j] {
              assert s[i] != s[j];
            }
          }
        }
      }
    }
  }

  /** What Fill leaves marked as deleted. */
  function Deleted(requested: seq<string>, response: seq<Option<string>>): set<string> {
    if |Ids(response)| == |requested| then {}
    else Elements(Missing(requested, Elements(Ids(response))))
  }

  /** Skipping the search when the lengths agree is exact: it deletes the requested IDs the response does
      not contain, if and only if the lengths differ or every requested ID was returned. */
  lemma DeletionIsExact(requested: seq<string>, response: seq<Option<string>>)
    ensures
      Deleted(requested, response) == Elements(requested) - Elements(Ids(response))
      <==> |Ids(response)| != |requested| || Elements(requested) <= Elements(Ids(response))
  {
    MissingMembers(requested, Elements(Ids(response)));
    var gone := Elements(requested) - Elements(Ids(response));
    if |Ids(response)| == |requested| && gone == {} {
      forall id | id in Elements(requested) ensures id in Elements(Ids(response)) {
        assert id !in gone;
      }
    }
  }

  /** A service that answers each request at most once, and only what was asked, always meets that: when the
      lengths agree there is nothing left to be missing. */
  lemma HonestResponsesAreExact(requested: seq<string>, response: seq<Option<string>>)
    requires Distinct(Ids(response)) && Elements(Ids(response)) <= Elements(requested)
    ensures Deleted(requested, response) == Elements(requested) - Elements(Ids(response))
  {
    DeletionIsExact(requested, response);
    DistinctCount(Ids(response));
    DistinctCount(requested);
    if |Ids(response)| == |requested| {
      EqualBySize(Elements(Ids(response)), Elements(requested));
    }
  }

  lemma EqualBySize<X>(a: set<X>, b: set<X>)
    requires a <= b && |a| >= |b|
    ensures a == b
  {
    assert |b| == |a| + |b - a|;
  }

  /** A response that repeats an ID hides one that is missing. */
  lemma RepeatedIdHidesAMissingOne()
    ensures Deleted(["a", "b"], [Some("a"), Some("a")]) != Elements(["a", "b"]) - Elements(Ids([Some("a"), Some("a")]))
  {
    var requested, response := ["a", "b"], [Some("a"), Some("a")];
    assert response[..1][..0] == [] && response[..1] == [response[0]];
    assert Ids(response[..1]) == ["a"];
    assert Ids(response) == ["a", "a"];
    assert requested[1] in Elements(requested) && "b" !in Elements(Ids(response));
    assert "b" in Elements(requested) - Elements(Ids(response));
  }
}
