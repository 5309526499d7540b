/** The morphology of the full CA229 cell: 4 soma, 45 apical and 36 basal
    sections, numbered in the order they are created, and the 84 connect
    statements that attach each of them to its parent. */
module CA229Topology {

  const NSoma: nat := 4
  const NApical: nat := 45
  const NBasal: nat := 36
  const NSections: nat := NSoma + NApical + NBasal

  /** Section numbers in creation order: soma[i], then apical[i], then basal[i]. */
  function SomaSec(i: nat): nat { i }
  function ApicalSec(i: nat): nat { NSoma + i }
  function BasalSec(i: nat): nat { NSoma + NApical + i }

  /** basal[16] is reshaped and treated as the axon. */
  const AxonSec: nat := BasalSec(16)

  const NConnects: nat := 84

  /** The section basal[i] is connected to (numbered as above). */
  function BasalParent(i: nat): nat
  {
    if i == 0 then 1  // CA229.py:558 soma[1]
    else if i == 1 then 49  // CA229.py:566 basal[0]
    else if i == 2 then 50  // CA229.py:571 basal[1]
    else if i == 3 then 51  // CA229.py:582 basal[2]
    else if i == 4 then 51  // CA229.py:589 basal[2]
    else if i == 5 then 50  // CA229.py:600 basal[1]
    else if i == 6 then 54  // CA229.py:605 basal[5]
    else if i == 7 then 55  // CA229.py:618 basal[6]
    else if i == 8 then 55  // CA229.py:634 basal[6]
    else if i == 9 then 54  // CA229.py:651 basal[5]
    else if i == 10 then 58  // CA229.py:662 basal[9]
    else if i == 11 then 58  // CA229.py:688 basal[9]
    else if i == 12 then 60  // CA229.py:707 basal[11]
    else if i == 13 then 60  // CA229.py:712 basal[11]
    else if i == 14 then 49  // CA229.py:720 basal[0]
    else if i == 15 then 2  // CA229.py:763 soma[2]
    else if i == 16 then 2  // CA229.py:819 soma[2]
    else if i == 17 then 2  // CA229.py:829 soma[2]
    else if i == 18 then 66  // CA229.py:835 basal[17]
    else if i == 19 then 67  // CA229.py:843 basal[18]
    else if i == 20 then 67  // CA229.py:860 basal[18]
    else if i == 21 then 66  // CA229.py:895 basal[17]
    else if i == 22 then 70  // CA229.py:904 basal[21]
    else if i == 23 then 70  // CA229.py:946 basal[21]
    else if i == 24 then 72  // CA229.py:951 basal[23]
    else if i == 25 then 72  // CA229.py:977 basal[23]
    else if i == 26 then 0  // CA229.py:1012 soma[0]
    else if i == 27 then 75  // CA229.py:1021 basal[26]
    else if i == 28 then 76  // CA229.py:1032 basal[27]
    else if i == 29 then 76  // CA229.py:1047 basal[27]
    else if i == 30 then 78  // CA229.py:1053 basal[29]
    else if i == 31 then 79  // CA229.py:1062 basal[30]
    else if i == 32 then 79  // CA229.py:1082 basal[30]
    else if i == 33 then 78  // CA229.py:1097 basal[29]
    else if i == 34 then 75  // CA229.py:1110 basal[26]
    else if i == 35 then 0  // CA229.py:1154 soma[0]
    else 0
  }

  /** The section apical[i] is connected to (numbered as above). */
  function ApicalParent(i: nat): nat
  {
    if i == 0 then 3  // CA229.py:1183 soma[3]
    else if i == 1 then 4  // CA229.py:1193 apical[0]
    else if i == 2 then 4  // CA229.py:1240 apical[0]
    else if i == 3 then 6  // CA229.py:1251 apical[2]
    else if i == 4 then 7  // CA229.py:1262 apical[3]
    else if i == 5 then 8  // CA229.py:1269 apical[4]
    else if i == 6 then 9  // CA229.py:1274 apical[5]
    else if i == 7 then 10  // CA229.py:1285 apical[6]
    else if i == 8 then 11  // CA229.py:1295 apical[7]
    else if i == 9 then 12  // CA229.py:1323 apical[8]
    else if i == 10 then 13  // CA229.py:1334 apical[9]
    else if i == 11 then 14  // CA229.py:1343 apical[10]
    else if i == 12 then 15  // CA229.py:1360 apical[11]
    else if i == 13 then 16  // CA229.py:1401 apical[12]
    else if i == 14 then 16  // CA229.py:1421 apical[12]
    else if i == 15 then 15  // CA229.py:1427 apical[11]
    else if i == 16 then 19  // CA229.py:1465 apical[15]
    else if i == 17 then 19  // CA229.py:1473 apical[15]
    else if i == 18 then 14  // CA229.py:1479 apical[10]
    else if i == 19 then 13  // CA229.py:1524 apical[9]
    else if i == 20 then 12  // CA229.py:1555 apical[8]
    else if i == 21 then 24  // CA229.py:1564 apical[20]
    else if i == 22 then 25  // CA229.py:1569 apical[21]
    else if i == 23 then 25  // CA229.py:1609 apical[21]
    else if i == 24 then 27  // CA229.py:1641 apical[23]
    else if i == 25 then 28  // CA229.py:1649 apical[24]
    else if i == 26 then 28  // CA229.py:1659 apical[24]
    else if i == 27 then 27  // CA229.py:1674 apical[23]
    else if i == 28 then 31  // CA229.py:1692 apical[27]
    else if i == 29 then 31  // CA229.py:1712 apical[27]
    else if i == 30 then 24  // CA229.py:1740 apical[20]
    else if i == 31 then 34  // CA229.py:1772 apical[30]
    else if i == 32 then 34  // CA229.py:1795 apical[30]
    else if i == 33 then 11  // CA229.py:1816 apical[7]
    else if i == 34 then 37  // CA229.py:1826 apical[33]
    else if i == 35 then 37  // CA229.py:1850 apical[33]
    else if i == 36 then 10  // CA229.py:1870 apical[6]
    else if i == 37 then 40  // CA229.py:1876 apical[36]
    else if i == 38 then 40  // CA229.py:1901 apical[36]
    else if i == 39 then 9  // CA229.py:1943 apical[5]
    else if i == 40 then 8  // CA229.py:1967 apical[4]
    else if i == 41 then 7  // CA229.py:1989 apical[3]
    else if i == 42 then 6  // CA229.py:2012 apical[2]
    else if i == 43 then 46  // CA229.py:2022 apical[42]
    else if i == 44 then 46  // CA229.py:2040 apical[42]
    else 0
  }

  /** The k-th connect statement of create_cell as (child, parent), standing
      for `child.connect(parent)`.  The soma block attaches soma[1], soma[3]
      and soma[2]; then come basal[0] to basal[35] and apical[0] to
      apical[44], each attached once, in index order. */
  function ConnectCall(k: nat): (nat, nat)
  {
    if k == 0 then (SomaSec(1), SomaSec(0))       // CA229.py:538
    else if k == 1 then (SomaSec(3), SomaSec(0))  // CA229.py:544
    else if k == 2 then (SomaSec(2), SomaSec(1))  // CA229.py:552
    else if k < 3 + NBasal then (BasalSec(k - 3), BasalParent(k - 3))
    else (ApicalSec(k - 3 - NBasal), ApicalParent(k - 3 - NBasal))
  }

  /** The connect statement that attaches section s. */
  function CallOf(s: nat): nat
  {
    if s == 1 then 0
    else if s == 3 then 1
    else if s == 2 then 2
    else if s < NSoma + NApical then 3 + NBasal + (s - NSoma)
    else 3 + (s - NSoma - NApical)
  }

  lemma BasalParentsOlder()
    ensures forall i :: 0 <= i < NBasal ==> BasalParent(i) < BasalSec(i)
  {
  }

  lemma ApicalParentsOlder()
    ensures forall i :: 0 <= i < NApical ==> ApicalParent(i) < ApicalSec(i)
  {
  }

  /** Every connect statement attaches a section to one created before it. */
  lemma ConnectsPointBack()
    ensures forall k :: 0 <= k < NConnects ==>
              ConnectCall(k).1 < ConnectCall(k).0 < NSections
  {
    BasalParentsOlder();
    ApicalParentsOlder();
  }

  /** The connect statements attach every section but soma[0], each exactly
      once: CallOf is a two-sided inverse of "the child of statement k". */
  lemma ConnectsAttachEachOnce()
    ensures forall k :: 0 <= k < NConnects ==> CallOf(ConnectCall(k).0) == k
    ensures forall s :: 1 <= s < NSections ==> CallOf(s) < NConnects && ConnectCall(CallOf(s)).0 == s
    ensures forall k :: 0 <= k < NConnects ==> ConnectCall(k).0 != SomaSec(0)
  {
  }

  /** The parent section of every section but soma[0]. */
  function ParentOf(s: nat): (p: nat)
    requires 1 <= s < NSections
    ensures p < s
    ensures exists k :: 0 <= k < NConnects && ConnectCall(k) == (s, p)
  {
    ConnectsPointBack();
    ConnectsAttachEachOnce();
    ConnectCall(CallOf(s)).1
  }

  /** The chain of parents from section s up to soma[0]. */
  function PathToRoot(s: nat): (path: seq<nat>)
    requires s < NSections
    ensures |path| >= 1 && path[0] == s && path[|path| - 1] == SomaSec(0)
    ensures forall i :: 0 <= i < |path| - 1 ==> 1 <= path[i] < NSections && path[i + 1] == ParentOf(path[i])
    decreases s
  {
    if s == 0 then [0] else [s] + PathToRoot(ParentOf(s))
  }

  /** The parent relation is a tree rooted at soma[0]: each section reaches
      soma[0], through strictly older sections, in at most s steps. */
  lemma {:induction false} RootedAtSoma0(s: nat)
    requires s < NSections
    ensures |PathToRoot(s)| <= s + 1
    ensures forall i :: 0 <= i < |PathToRoot(s)| - 1 ==> PathToRoot(s)[i + 1] < PathToRoot(s)[i]
    decreases s
  {
    if s > 0 {
      RootedAtSoma0(ParentOf(s));
    }
  }
}
