/** The badge conditions and the append-only badge scan (server.js:72-88, 148-159). */
module Badges {
  import opened GameData
  import opened Catalog

  /** A badge condition on the player; the clock-dependent ones read the local
      hour and weekday of the request instead of the player. */
  predicate Holds(b: Badge, p: Player, hour: int, weekday: int)
    requires Ready(p)
  {
    var st := p.statistics.value;
    match b
    case FlameOn => p.streak >= 7
    case BigBrain => st.highestSingleMessageXp >= 50
    case HealthGuardian => p.stats.value.health >= 80 && p.streak >= 7
    case Legendary => p.streak >= 30
    case Bibliophile => p.totalXpEarned >= 1000
    case TechWizard => st.totalHighQualityMessages >= 20
    case CreativeGenius => st.totalHighQualityMessages >= 20
    case Consistent => p.level >= 10 && p.longestStreak >= 10
    case Master => p.level >= 50
    case QuestMaster => st.dailyQuestsCompletedTotal >= 5
    case NightOwl => hour >= 23 || hour <= 4
    case EarlyBird => hour >= 5 && hour <= 9
    case WeekendWarrior => weekday == 0 || weekday == 6
    case SocialButterfly => st.totalMessages >= 100
    case DeepThinker => st.averageXpPerMessage >= 20
  }

  /** `deep-thinker` is awarded at an average of exactly 20 XP per message,
      although its description in the catalog says "> 20". */
  lemma DeepThinkerAtTwenty(p: Player, hour: int, weekday: int)
    requires Ready(p) && p.statistics.value.averageXpPerMessage == 20
    ensures Holds(DeepThinker, p, hour, weekday)
    ensures DeepThinker.description == "Average XP per message > 20"
  {
  }

  /** How the conditions of the table relate: the two twenty-message badges
      have the same condition, the 30-day streak and the health badge both
      imply the 7-day streak, the night and morning windows never overlap, and
      the master's level implies the level half of the consistency badge. */
  lemma BadgeConditionsOverlap(p: Player, hour: int, weekday: int)
    requires Ready(p)
    ensures Holds(TechWizard, p, hour, weekday) <==> Holds(CreativeGenius, p, hour, weekday)
    ensures Holds(Legendary, p, hour, weekday) ==> Holds(FlameOn, p, hour, weekday)
    ensures Holds(HealthGuardian, p, hour, weekday) ==> Holds(FlameOn, p, hour, weekday)
    ensures !(Holds(NightOwl, p, hour, weekday) && Holds(EarlyBird, p, hour, weekday))
    ensures Holds(Master, p, hour, weekday) && p.longestStreak >= 10 ==> Holds(Consistent, p, hour, weekday)
  {
  }

  /** The entries of `catalog` a scan awards: those whose key is not among
      `owned` and whose condition holds, in catalog order. */
  function Unlocked(catalog: seq<Badge>, owned: seq<string>, p: Player, hour: int, weekday: int): (r: seq<Badge>)
    requires Ready(p)
    ensures forall b :: b in r <==> b in catalog && b.key !in owned && Holds(b, p, hour, weekday)
    ensures |r| <= |catalog|
  {
    if catalog == [] then []
    else
      var b := catalog[0];
      (if b.key !in owned && Holds(b, p, hour, weekday) then [b] else [])
        + Unlocked(catalog[1..], owned, p, hour, weekday)
  }

  /** Scanning a catalog in two parts gives the awards of the first part
      followed by those of the second: the scan keeps catalog order. */
  lemma {:induction false} UnlockedAppend(a: seq<Badge>, b: seq<Badge>, owned: seq<string>, p: Player, hour: int, weekday: int)
    requires Ready(p)
    ensures Unlocked(a + b, owned, p, hour, weekday) == Unlocked(a, owned, p, hour, weekday) + Unlocked(b, owned, p, hour, weekday)
  {
    if a == [] {
      assert a + b == b;
    } else {
      assert (a + b)[0] == a[0];
      assert (a + b)[1..] == a[1..] + b;
      UnlockedAppend(a[1..], b, owned, p, hour, weekday);
    }
  }

  function Keys(bs: seq<Badge>): (ks: seq<string>)
    ensures |ks| == |bs| && forall i :: 0 <= i < |bs| ==> ks[i] == bs[i].key
  {
    seq(|bs|, i requires 0 <= i < |bs| => bs[i].key)
  }

  lemma KeysAppend(a: seq<Badge>, b: seq<Badge>)
    ensures Keys(a + b) == Keys(a) + Keys(b)
  {
    forall i | 0 <= i < |a + b| ensures Keys(a + b)[i] == (Keys(a) + Keys(b))[i] {
      if i < |a| {
        assert (a + b)[i] == a[i];
      } else {
        assert (a + b)[i] == b[i - |a|];
      }
    }
  }

  predicate NoDuplicates<T(==)>(s: seq<T>) {
    forall i, j :: 0 <= i < j < |s| ==> s[i] != s[j]
  }

  /** Two lists without duplicates and without a common element join into a
      list without duplicates. */
  lemma NoDuplicatesAppend<T>(x: seq<T>, y: seq<T>)
    requires NoDuplicates(x) && NoDuplicates(y)
    requires forall k :: k in x ==> k !in y
    ensures NoDuplicates(x + y)
  {
    var xy := x + y;
    forall i, j | 0 <= i < j < |xy| ensures xy[i] != xy[j] {
      if j < |x| {
        assert xy[i] == x[i] && xy[j] == x[j];
      } else if i >= |x| {
        assert xy[i] == y[i - |x|] && xy[j] == y[j - |x|];
      } else {
        assert xy[i] == x[i] && xy[j] == y[j - |x|];
        assert xy[i] in x;
      }
    }
  }

  /** From a catalog with unique keys a scan awards unique keys, each from the
      catalog and none already owned. */
  lemma {:induction false} UnlockedKeysFresh(catalog: seq<Badge>, owned: seq<string>, p: Player, hour: int, weekday: int)
    requires Ready(p) && NoDuplicates(Keys(catalog))
    ensures var ks := Keys(Unlocked(catalog, owned, p, hour, weekday));
      NoDuplicates(ks) && forall k :: k in ks ==> k in Keys(catalog) && k !in owned
  {
    if catalog != [] {
      var b, rest := catalog[0], catalog[1..];
      assert Keys(rest) == Keys(catalog)[1..];
      UnlockedKeysFresh(rest, owned, p, hour, weekday);
      var head := if b.key !in owned && Holds(b, p, hour, weekday) then [b] else [];
      var found := Unlocked(rest, owned, p, hour, weekday);
      assert Unlocked(catalog, owned, p, hour, weekday) == head + found;
      KeysAppend(head, found);
      assert b.key !in Keys(rest) by {
        forall i | 0 <= i < |rest| ensures Keys(rest)[i] != b.key {
          assert Keys(catalog)[i + 1] == Keys(rest)[i];
        }
      }
      assert forall k :: k in Keys(head) ==> k == b.key && k in Keys(catalog) && k !in owned;
      NoDuplicatesAppend(Keys(head), Keys(found));
    }
  }

  /** `checkBadges` never duplicates a key: the owned list stays free of
      duplicates, and only grows, by the keys of the awarded badges. */
  lemma ScanKeepsBadgesDistinct(owned: seq<string>, p: Player, hour: int, weekday: int)
    requires Ready(p) && NoDuplicates(owned)
    ensures var ks := Keys(Unlocked(Badges, owned, p, hour, weekday));
      NoDuplicates(owned + ks) && forall k :: k in ks ==> k !in owned
  {
    BadgeKeysDistinct();
    assert NoDuplicates(Keys(Badges));
    UnlockedKeysFresh(Badges, owned, p, hour, weekday);
    NoDuplicatesAppend(owned, Keys(Unlocked(Badges, owned, p, hour, weekday)));
  }

  /** A badge condition does not read the badge list. */
  lemma HoldsIgnoresBadges(b: Badge, p: Player, owned: seq<string>, hour: int, weekday: int)
    requires Ready(p)
    ensures Holds(b, p.(badges := owned), hour, weekday) == Holds(b, p, hour, weekday)
  {
  }

  /** One more catalog entry scanned: it is awarded exactly when its key is
      unowned and its condition holds, and its key is none of those awarded
      before it, so testing the grown list is testing the original one. */
  lemma UnlockedStep(i: int, owned: seq<string>, found: seq<Badge>, p: Player, hour: int, weekday: int)
    requires Ready(p) && 0 <= i < |Badges|
    requires found == Unlocked(Badges[..i], owned, p, hour, weekday)
    ensures var b := Badges[i];
      && Unlocked(Badges[..i + 1], owned, p, hour, weekday)
         == found + (if b.key !in owned && Holds(b, p, hour, weekday) then [b] else [])
      && (b.key in owned + Keys(found) <==> b.key in owned)
  {
    var b := Badges[i];
    assert Badges[..i + 1] == Badges[..i] + [b];
    UnlockedAppend(Badges[..i], [b], owned, p, hour, weekday);
    KeyNotFoundBefore(i, owned, found, p, hour, weekday);
  }

  /** One step of the scan on the player as it stands after `i` entries:
      the test made on that player is the test on the original one, and
      pushing the key keeps the player equal to the original with the
      awarded keys appended. */
  lemma ScanStep(i: int, owned: seq<string>, found: seq<Badge>, p: Player, current: Player, hour: int, weekday: int)
    requires Ready(p) && 0 <= i < |Badges|
    requires found == Unlocked(Badges[..i], owned, p, hour, weekday)
    requires current == p.(badges := owned + Keys(found))
    ensures Ready(current)
    ensures var b := Badges[i];
      var award := b.key !in current.badges && Holds(b, current, hour, weekday);
      && Unlocked(Badges[..i + 1], owned, p, hour, weekday) == found + (if award then [b] else [])
      && current.(badges := current.badges + [b.key]) == p.(badges := owned + Keys(found + [b]))
  {
    var b := Badges[i];
    UnlockedStep(i, owned, found, p, hour, weekday);
    HoldsIgnoresBadges(b, p, current.badges, hour, weekday);
    KeysAppend(found, [b]);
    assert Keys([b]) == [b.key];
    assert owned + Keys(found + [b]) == current.badges + [b.key];
  }

  /** The entries awarded before position `i` all sit before it in the
      catalog, and keys are unique, so none has the key of entry `i`. */
  lemma KeyNotFoundBefore(i: int, owned: seq<string>, found: seq<Badge>, p: Player, hour: int, weekday: int)
    requires Ready(p) && 0 <= i < |Badges|
    requires found == Unlocked(Badges[..i], owned, p, hour, weekday)
    ensures Badges[i].key !in Keys(found)
  {
    BadgeKeysDistinct();
    forall k | 0 <= k < |found| ensures Keys(found)[k] != Badges[i].key {
      assert found[k] in Badges[..i];
    }
  }

  /** `checkBadges`: the awarded badges, and the player with their keys
      appended to `badges`. */
  function Scan(p: Player, hour: int, weekday: int): (r: (Player, seq<Badge>))
    requires Ready(p)
    ensures r.1 == Unlocked(Badges, p.badges, p, hour, weekday)
    ensures r.0 == p.(badges := p.badges + Keys(r.1))
  {
    var found := Unlocked(Badges, p.badges, p, hour, weekday);
    (p.(badges := p.badges + Keys(found)), found)
  }
}
