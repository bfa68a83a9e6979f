/** The static seed the application starts from: two owners, two renters, five listings, three conversations. */
module MockData {
  import opened Wrappers
  import opened Types

  const Owners: seq<Owner> := [
    Owner("owner-1", "Ali Abdullah", "/profile.jpg", "ali.abdullah@gmail.com", Some("056 3015516")),
    Owner("owner-2", "Bob Williams", "https://placehold.co/100x100.png", "bob.w@example.com", None)
  ]

  const Renters: seq<Renter> := [
    Renter("renter-1", "Charlie Davis", "https://placehold.co/100x100.png"),
    Renter("renter-2", "Diana Prince", "https://placehold.co/100x100.png")
  ]

  const Prop1 := Property(
    "prop-1", "Modern Downtown Apartment",
    "A stylish and modern apartment in the heart of the city. Perfect for young professionals. Comes with all modern amenities and a great view of the city skyline.",
    Apartment, 2200, "New York, NY", ["/listing-1.jpg", "/listing-2.jpg"], true, "owner-1",
    Details(Some(2), Some(2), None), ["WiFi", "Kitchen", "Air Conditioning", "Gym", "Pool"],
    true, Furnished, None, None)

  const Prop2 := Property(
    "prop-2", "Private Room in Shared House",
    "Charming room in a quiet suburban neighborhood. Ideal for students or single professionals. Access to shared kitchen and living spaces.",
    Room, 800, "San Francisco, CA", ["/listing-3.jpg", "/listing-4.jpg"], false, "owner-2",
    Details(Some(1), Some(1), None), ["WiFi", "Kitchen", "Washer", "Dryer"],
    false, Furnished, None, None)

  const Prop3 := Property(
    "prop-3", "Affordable Bedspace for Rent",
    "A cozy and affordable bedspace in a shared room. Includes a personal locker. Great for those on a tight budget.",
    Bedspace, 300, "Chicago, IL", ["/listing-2.jpg"], false, "owner-1",
    NoDetails, ["WiFi", "Shared Bathroom", "Air Conditioning"],
    true, Furnished, None, None)

  const Prop4 := Property(
    "prop-4", "Spacious Commercial Space",
    "Prime commercial space on a busy street. Excellent for a retail store or a modern office. High foot traffic area.",
    Commercial, 5000, "Miami, FL", ["/listing-3.jpg"], true, "owner-2",
    Details(None, None, Some(2000)), ["High-Speed Internet", "Central Air", "Parking", "Security System"],
    true, Unfurnished, None, None)

  const Prop5 := Property(
    "prop-5", "Unfurnished Studio Apartment",
    "A blank canvas for you to make your own. This bright and airy studio apartment with large windows is ready for your personal touch. Close to public transportation and local cafes.",
    Apartment, 1500, "Los Angeles, CA", ["/listing-2.jpg"], false, "owner-1",
    Details(Some(1), Some(1), None), ["Kitchenette", "Air Conditioning", "Parking"],
    false, Unfurnished, None, None)

  /** The seed listings, in store order. */
  const Properties: seq<Property> := [Prop1, Prop2, Prop3, Prop4, Prop5]

  const Conversations: seq<Conversation> := [
    Conversation(
      "convo-1", PropertyRef("prop-1", "Modern Downtown Apartment", "/listing-1.jpg"),
      Owners[0], Renters[0],
      [Message("msg-1-1", "renter-1", "Hi, is this apartment still available?", "2024-05-20T10:00:00Z"),
       Message("msg-1-2", "owner-1", "Hello! Yes, it is. Are you interested in a viewing?", "2024-05-20T10:05:00Z"),
       Message("msg-1-3", "renter-1", "Great! How about tomorrow afternoon?", "2024-05-20T10:06:00Z")]),
    Conversation(
      "convo-2", PropertyRef("prop-4", "Spacious Commercial Space", "/listing-3.jpg"),
      Owners[1], Renters[1],
      [Message("msg-2-1", "renter-2", "Good morning, I have a few questions about the commercial space.", "2024-05-19T09:00:00Z"),
       Message("msg-2-2", "owner-2", "Sure, I'd be happy to answer them.", "2024-05-19T09:10:00Z")]),
    Conversation(
      "convo-3", PropertyRef("prop-3", "Affordable Bedspace for Rent", "/listing-2.jpg"),
      Owners[0], Renters[1],
      [Message("msg-3-1", "renter-1", "Can you tell me more about the rules for the bedspace?", "2024-05-21T11:00:00Z"),
       Message("msg-3-2", "owner-1", "Of course. The main rules are no smoking and keeping the shared space clean.", "2024-05-21T11:05:00Z"),
       Message("msg-3-3", "renter-1", "Sounds good, thank you!", "2024-05-21T11:06:00Z")])
  ]

  /** The seed ids are prop-1 .. prop-5, pairwise distinct. */
  lemma SeedIdsDistinct()
    ensures Ids(Properties) == ["prop-1", "prop-2", "prop-3", "prop-4", "prop-5"]
    ensures UniqueIds(Properties)
  {
    var ids := Ids(Properties);
    assert ids == ["prop-1", "prop-2", "prop-3", "prop-4", "prop-5"];
    forall i, j | 0 <= i < j < |Properties| ensures Properties[i].id != Properties[j].id {
      assert Properties[i].id == ids[i] && Properties[j].id == ids[j];
      assert ids[i][5] != ids[j][5];
    }
  }

  /** Every seed listing is well formed: prices 2200, 800, 300, 5000, 1500, and at least one image each. */
  lemma SeedWellFormed()
    ensures forall k :: 0 <= k < |Properties| ==> WellFormed(Properties[k])
    ensures [Prop1.price, Prop2.price, Prop3.price, Prop4.price, Prop5.price] == [2200, 800, 300, 5000, 1500]
  {
  }

  /** Every seed listing names an owner that exists. */
  lemma SeedOwnersExist()
    ensures forall k :: 0 <= k < |Properties| ==>
      exists o :: o in Owners && o.id == Properties[k].ownerId
  {
    assert Owners[0] in Owners && Owners[1] in Owners;
  }

  /** The seed kinds in store order. */
  lemma SeedTypes()
    ensures forall k :: 0 <= k < |Properties| ==> Properties[k].propertyType == [Apartment, Room, Bedspace, Commercial, Apartment][k]
  {
  }

  /** Exactly prop-1 and prop-4 are featured. */
  lemma SeedFeatured()
    ensures forall k :: 0 <= k < |Properties| ==> (Properties[k].featured <==> Properties[k].id in {"prop-1", "prop-4"})
  {
  }

  /** Every seed conversation has a message, so reading its last message is defined. */
  lemma SeedConversationsHaveMessages()
    ensures forall k :: 0 <= k < |Conversations| ==> |Conversations[k].messages| >= 1
  {
  }

  /**
   * Senders are not always participants: convo-3 is between owner-1 and renter-2, yet two of
   * its messages come from renter-1.
   */
  lemma SeedSenderNotParticipant()
    ensures var c := Conversations[2];
      c.id == "convo-3" && c.renter.id == "renter-2" && c.owner.id == "owner-1" &&
      c.messages[0].senderId == "renter-1" &&
      c.messages[0].senderId != c.renter.id && c.messages[0].senderId != c.owner.id
  {
  }
}
