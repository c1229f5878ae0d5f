/**
 * The mock data layer: in-memory college and PG tables with get/add/update/delete,
 * and a mock authentication service with a current user and a listener list.
 */
module Firebase {
  import opened Wrappers
  import opened Text
  import opened Seqs

  datatype Role = Admin | RegularUser

  datatype User = User(uid: string, email: string, displayName: string, role: Role)

  datatype Category = Engineering | Medical | Arts | Commerce | Law

  datatype CollegeContact = CollegeContact(phone: string, email: string, website: string)

  datatype College = College(
    id: string, name: string, location: string, city: string, state: string,
    category: Category, rating: real, fees: int, avgPackage: int, highestPackage: int,
    placementPercentage: int, courses: seq<string>, facilities: seq<string>,
    recruiters: seq<string>, campusArea: string, contact: CollegeContact, images: seq<string>)

  datatype Occupancy = Boys | Girls | CoEd

  datatype PGContact = PGContact(phone: string, email: string)

  datatype PG = PG(
    id: string, name: string, location: string, city: string, rent: int, occupancy: Occupancy,
    facilities: seq<string>, nearbyColleges: seq<string>, contact: PGContact,
    images: seq<string>, rating: real)

  /** `Partial<College>`: `Some` for each key present in the update object. */
  datatype CollegePatch = CollegePatch(
    id: Option<string>, name: Option<string>, location: Option<string>, city: Option<string>,
    state: Option<string>, category: Option<Category>, rating: Option<real>, fees: Option<int>,
    avgPackage: Option<int>, highestPackage: Option<int>, placementPercentage: Option<int>,
    courses: Option<seq<string>>, facilities: Option<seq<string>>, recruiters: Option<seq<string>>,
    campusArea: Option<string>, contact: Option<CollegeContact>, images: Option<seq<string>>)

  const NoChanges := CollegePatch(None, None, None, None, None, None, None, None, None,
                                  None, None, None, None, None, None, None, None)

  /** `{ ...college, ...updates }`: a shallow merge in which the keys present in `updates` win. */
  function Merge(c: College, u: CollegePatch): College {
    College(
      u.id.GetOr(c.id), u.name.GetOr(c.name), u.location.GetOr(c.location), u.city.GetOr(c.city),
      u.state.GetOr(c.state), u.category.GetOr(c.category), u.rating.GetOr(c.rating),
      u.fees.GetOr(c.fees), u.avgPackage.GetOr(c.avgPackage), u.highestPackage.GetOr(c.highestPackage),
      u.placementPercentage.GetOr(c.placementPercentage), u.courses.GetOr(c.courses),
      u.facilities.GetOr(c.facilities), u.recruiters.GetOr(c.recruiters),
      u.campusArea.GetOr(c.campusArea), u.contact.GetOr(c.contact), u.images.GetOr(c.images))
  }

  /** An update object with no keys leaves the record as it was. */
  lemma MergeNoChanges(c: College)
    ensures Merge(c, NoChanges) == c
  {
  }

  /** Applying the same update twice is applying it once. */
  lemma MergeIdempotent(c: College, u: CollegePatch)
    ensures Merge(Merge(c, u), u) == Merge(c, u)
  {
  }

  /** Updated fields take the new values, the others keep the old ones (shown for a few representative keys). */
  lemma MergeFieldwise(c: College, u: CollegePatch)
    ensures u.name.Some? ==> Merge(c, u).name == u.name.value
    ensures u.name.None? ==> Merge(c, u).name == c.name
    ensures u.fees.Some? ==> Merge(c, u).fees == u.fees.value
    ensures u.fees.None? ==> Merge(c, u).fees == c.fees
    ensures u.id.Some? ==> Merge(c, u).id == u.id.value
    ensures u.id.None? ==> Merge(c, u).id == c.id
    ensures u.courses.Some? ==> Merge(c, u).courses == u.courses.value
    ensures u.courses.None? ==> Merge(c, u).courses == c.courses
  {
  }

  /** `findIndex(c => c.id === id)`: the first index holding that id, or -1. */
  function FindIndexById(s: seq<College>, id: string): (i: int)
    ensures -1 <= i < |s|
    ensures i == -1 <==> forall j :: 0 <= j < |s| ==> s[j].id != id
    ensures 0 <= i ==> s[i].id == id && forall j :: 0 <= j < i ==> s[j].id != id
  {
    if s == [] then -1
    else if s[0].id == id then 0
    else
      var k := FindIndexById(s[1..], id);
      if k == -1 then -1 else k + 1
  }

  /** `splice(findIndex(...), 1)` when the id is present: the table without the first record holding `id`. */
  function WithoutFirst(s: seq<College>, id: string): (r: seq<College>)
    ensures FindIndexById(s, id) == -1 ==> r == s
    ensures FindIndexById(s, id) != -1 ==>
      |r| == |s| - 1 && IsSubsequence(r, s)
      && multiset(r) + multiset{s[FindIndexById(s, id)]} == multiset(s)
    ensures FindIndexById(s, id) != -1 ==>
      r[..FindIndexById(s, id)] == s[..FindIndexById(s, id)]
      && r[FindIndexById(s, id)..] == s[FindIndexById(s, id) + 1..]
  {
    var i := FindIndexById(s, id);
    if i == -1 then s
    else
      RemoveAtIsSubsequence(s, i);
      assert s == s[..i] + [s[i]] + s[i + 1..];
      s[..i] + s[i + 1..]
  }

  /** Deleting removes only the first record with the id: any later record with the same id stays. */
  lemma DeleteRemovesOnlyFirstMatch(s: seq<College>, id: string, j: nat)
    requires j < |s| && s[j].id == id && j != FindIndexById(s, id)
    ensures s[j] in WithoutFirst(s, id)
  {
    var i := FindIndexById(s, id);
    assert s[j] == (s[..i] + s[i + 1..])[j - 1];
  }

  const DemoUser := User("user123", "demo@univera.com", "Demo User", RegularUser)

  /**
   * The user a sign-in creates: role `admin` exactly when the email contains "admin"
   * (case-sensitively), and the display name is the part of the email before the first '@'.
   */
  function NewUser(email: string, uid: string): (u: User)
    ensures u.uid == uid && u.email == email
    ensures u.role == Admin <==> exists i: nat :: OccursAt(email, "admin", i)
    ensures u.displayName <= email && '@' !in u.displayName
    ensures |u.displayName| < |email| ==> email[|u.displayName|] == '@'
  {
    ContainsIff(email, "admin");
    User(uid, email, FirstField(email, '@'), if Contains(email, "admin") then Admin else RegularUser)
  }

  /** The seed rows of `mockColleges`. */
  function SeedColleges(): seq<College> {
    [ College("1", "Indian Institute of Technology Delhi", "Hauz Khas, New Delhi", "Delhi", "Delhi",
              Engineering, 4.8, 250000, 1800000, 5500000, 95,
              ["Computer Science", "Electrical Engineering", "Mechanical Engineering", "Civil Engineering"],
              ["Library", "Hostel", "Sports Complex", "Labs", "Cafeteria"],
              ["Microsoft", "Google", "Amazon", "Goldman Sachs"], "325 acres",
              CollegeContact("+91-11-2659-1749", "webmaster@admin.iitd.ac.in", "https://home.iitd.ac.in"),
              ["/placeholder.svg"]),
      College("2", "VIT University Chennai", "Vandalur-Kelambakkam Road, Chennai", "Chennai", "Tamil Nadu",
              Engineering, 4.5, 200000, 800000, 3500000, 85,
              ["Computer Science", "Information Technology", "Electronics", "Biotechnology"],
              ["Library", "Hostel", "Sports Complex", "Labs", "Medical Center"],
              ["TCS", "Infosys", "Wipro", "Cognizant"], "300 acres",
              CollegeContact("+91-44-3993-1555", "admissions@vit.ac.in", "https://vit.ac.in"),
              ["/placeholder.svg"]) ]
  }

  /** The seed rows of `mockPGs`. */
  function SeedPGs(): seq<PG> {
    [ PG("1", "Elite Boys PG", "Near IIT Delhi", "Delhi", 12000, Boys,
         ["WiFi", "AC", "Laundry", "Meals", "Security"], ["IIT Delhi", "JNU"],
         PGContact("+91-9876543210", "elite@pg.com"), ["/placeholder.svg"], 4.2),
      PG("2", "Safe Haven Girls PG", "Near VIT Chennai", "Chennai", 10000, Girls,
         ["WiFi", "AC", "Laundry", "Meals", "24/7 Security"], ["VIT Chennai", "Anna University"],
         PGContact("+91-9876543211", "safehaven@pg.com"), ["/placeholder.svg"], 4.5) ]
  }

  /** `MockFirestore` together with the two module-level tables it changes in place. */
  class MockFirestore {
    var colleges: seq<College>
    var pgs: seq<PG>

    constructor ()
      ensures colleges == SeedColleges() && pgs == SeedPGs()
    {
      colleges := SeedColleges();
      pgs := SeedPGs();
    }

    /** `getColleges`: a copy of the table as it is now. */
    method GetColleges() returns (r: seq<College>)
      ensures r == colleges
    {
      r := colleges;
    }

    /** `getPGs`: a copy of the table as it is now. */
    method GetPGs() returns (r: seq<PG>)
      ensures r == pgs
    {
      r := pgs;
    }

    /** `addCollege`: appends the record with the new id (the random id is a parameter) and returns that id. */
    method AddCollege(college: College, id: string) returns (newId: string)
      modifies this`colleges
      ensures newId == id
      ensures colleges == old(colleges) + [college.(id := id)]
    {
      colleges := colleges + [college.(id := id)];
      newId := id;
    }

    /** `addPG`: appends the record with the new id and returns that id. */
    method AddPG(pg: PG, id: string) returns (newId: string)
      modifies this`pgs
      ensures newId == id
      ensures pgs == old(pgs) + [pg.(id := id)]
    {
      pgs := pgs + [pg.(id := id)];
      newId := id;
    }

    /**
     * `updateCollege`: merges `updates` into the first record with that id and leaves every
     * other record alone; with no such record the table is unchanged.
     */
    method UpdateCollege(id: string, updates: CollegePatch)
      modifies this`colleges
      ensures FindIndexById(old(colleges), id) == -1 ==> colleges == old(colleges)
      ensures FindIndexById(old(colleges), id) != -1 ==>
        var i := FindIndexById(old(colleges), id);
        && |colleges| == |old(colleges)|
        && colleges[i] == Merge(old(colleges)[i], updates)
        && forall j :: 0 <= j < |colleges| && j != i ==> colleges[j] == old(colleges)[j]
    {
      var index := FindIndexById(colleges, id);
      if index != -1 {
        colleges := colleges[index := Merge(colleges[index], updates)];
      }
    }

    /** `deleteCollege`: removes the first record with that id, if any. */
    method DeleteCollege(id: string)
      modifies this`colleges
      ensures colleges == WithoutFirst(old(colleges), id)
    {
      var index := FindIndexById(colleges, id);
      if index != -1 {
        colleges := colleges[..index] + colleges[index + 1..];
      }
    }
  }

  /** A subscribed callback, known by its identity (`===`). */
  datatype Listener = Listener(handle: nat)

  /** One call `listener(user)` made by the service. */
  datatype Notification = Notification(listener: Listener, user: Option<User>)

  /** `calls` is one call per listener, in subscription order, each passing `user`. */
  predicate NotifiesAll(calls: seq<Notification>, listeners: seq<Listener>, user: Option<User>) {
    |calls| == |listeners| && forall i :: 0 <= i < |calls| ==> calls[i] == Notification(listeners[i], user)
  }

  /** `listeners.filter(l => l !== callback)` */
  function Unsubscribed(listeners: seq<Listener>, callback: Listener): seq<Listener> {
    Filter(l => l != callback, listeners)
  }

  /** Unsubscribing removes every occurrence of the callback and keeps the others, in order. */
  lemma UnsubscribedSpec(listeners: seq<Listener>, callback: Listener)
    ensures callback !in Unsubscribed(listeners, callback)
    ensures forall l :: l != callback ==> (l in Unsubscribed(listeners, callback) <==> l in listeners)
    ensures IsSubsequence(Unsubscribed(listeners, callback), listeners)
    ensures callback !in listeners ==> Unsubscribed(listeners, callback) == listeners
    ensures forall l :: l != callback ==> multiset(Unsubscribed(listeners, callback))[l] == multiset(listeners)[l]
  {
    FilterMembers(l => l != callback, listeners);
    FilterCount(l => l != callback, listeners);
    FilterIsSubsequence(l => l != callback, listeners);
    FilterKeepsAll(l => l != callback, listeners);
  }

  /** `MockAuth`: the signed-in user and the subscribed callbacks. */
  class MockAuth {
    var currentUser: Option<User>
    var listeners: seq<Listener>

    constructor ()
      ensures currentUser == None && listeners == []
    {
      currentUser := None;
      listeners := [];
    }

    /** `notifyListeners`: calls every listener, in order, with the current user. */
    method NotifyListeners() returns (calls: seq<Notification>)
      ensures NotifiesAll(calls, listeners, currentUser)
    {
      calls := [];
      var i := 0;
      while i < |listeners|
        invariant 0 <= i <= |listeners|
        invariant NotifiesAll(calls, listeners[..i], currentUser)
      {
        calls := calls + [Notification(listeners[i], currentUser)];
        i := i + 1;
      }
      assert listeners[..i] == listeners;
    }

    /** The constructor's delayed demo sign-in. */
    method AutoLogin() returns (calls: seq<Notification>)
      modifies this`currentUser
      ensures currentUser == Some(DemoUser)
      ensures NotifiesAll(calls, listeners, Some(DemoUser))
    {
      currentUser := Some(DemoUser);
      calls := NotifyListeners();
    }

    /** `signInWithEmailAndPassword`: any password is accepted; the random uid is a parameter. */
    method SignInWithEmailAndPassword(email: string, password: string, uid: string)
      returns (user: User, calls: seq<Notification>)
      modifies this`currentUser
      ensures user == NewUser(email, uid) && currentUser == Some(user)
      ensures NotifiesAll(calls, listeners, Some(user))
    {
      user := NewUser(email, uid);
      currentUser := Some(user);
      calls := NotifyListeners();
    }

    /** `createUserWithEmailAndPassword` is sign-in. */
    method CreateUserWithEmailAndPassword(email: string, password: string, uid: string)
      returns (user: User, calls: seq<Notification>)
      modifies this`currentUser
      ensures user == NewUser(email, uid) && currentUser == Some(user)
      ensures NotifiesAll(calls, listeners, Some(user))
    {
      user, calls := SignInWithEmailAndPassword(email, password, uid);
    }

    /** `signOut`: clears the user and tells every listener. */
    method SignOut() returns (calls: seq<Notification>)
      modifies this`currentUser
      ensures currentUser == None
      ensures NotifiesAll(calls, listeners, None)
    {
      currentUser := None;
      calls := NotifyListeners();
    }

    /** `onAuthStateChanged`: subscribes the callback at the end and calls it once with the current user. */
    method OnAuthStateChanged(callback: Listener) returns (call: Notification)
      modifies this`listeners
      ensures listeners == old(listeners) + [callback]
      ensures call == Notification(callback, currentUser)
    {
      listeners := listeners + [callback];
      call := Notification(callback, currentUser);
    }

    /** The function `onAuthStateChanged` returns: drops every subscription of that callback. */
    method Unsubscribe(callback: Listener)
      modifies this`listeners
      ensures listeners == Unsubscribed(old(listeners), callback)
    {
      listeners := Unsubscribed(listeners, callback);
    }
  }
}
